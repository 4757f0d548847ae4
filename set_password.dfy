/**
 * The set-password page: the password strength policy, and the submit handler
 * that checks strength, then confirmation, then the presence of the link's
 * token before sending the new password.
 */
module SetPassword {
  import opened Wrappers
  import opened Forms
  import opened Text

  /** The characters the policy accepts as "special". */
  const SpecialCharacters: string := "!@#$%^&*(),.?\":{}|<>"

  const TooShort: string := "La password deve essere di almeno 8 caratteri."
  const NoUppercase: string := "La password deve contenere almeno una lettera Maiuscola."
  const NoLowercase: string := "La password deve contenere almeno una lettera minuscola."
  const NoDigit: string := "La password deve contenere almeno un Numero."
  const NoSpecial: string := "La password deve contenere almeno un carattere speciale (es. ! @ # $)."
  const Mismatch: string := "Le password non coincidono"
  const MissingToken: string := "Token mancante. Controlla il link nella mail."
  const GenericError: string := "Errore generico"

  const MinLength: nat := 8

  predicate IsUpperLetter(c: char) { 'A' <= c <= 'Z' }
  predicate IsLowerLetter(c: char) { 'a' <= c <= 'z' }
  predicate IsSpecial(c: char) { c in SpecialCharacters }

  /** `/[class]/.test(s)`: some character of `s` belongs to the class. */
  function AnyChar(s: string, inClass: char -> bool): (r: bool)
    ensures r <==> exists i :: 0 <= i < |s| && inClass(s[i])
  {
    if s == [] then false
    else inClass(s[0]) || AnyChar(s[1..], inClass)
  }

  /** The policy stated as one condition: long enough, and every required class present. */
  ghost predicate Strong(pwd: string)
  {
    && |pwd| >= MinLength
    && (exists i :: 0 <= i < |pwd| && IsUpperLetter(pwd[i]))
    && (exists i :: 0 <= i < |pwd| && IsLowerLetter(pwd[i]))
    && (exists i :: 0 <= i < |pwd| && IsDigit(pwd[i]))
    && (exists i :: 0 <= i < |pwd| && IsSpecial(pwd[i]))
  }

  /** `validatePassword`: the message of the first check that fails, or none. */
  function ValidatePassword(pwd: string): (r: Option<string>)
    ensures r.None? <==> Strong(pwd)
    ensures r.Some? ==> r.value in {TooShort, NoUppercase, NoLowercase, NoDigit, NoSpecial}
  {
    if |pwd| < MinLength then Some(TooShort)
    else if !AnyChar(pwd, IsUpperLetter) then Some(NoUppercase)
    else if !AnyChar(pwd, IsLowerLetter) then Some(NoLowercase)
    else if !AnyChar(pwd, IsDigit) then Some(NoDigit)
    else if !AnyChar(pwd, IsSpecial) then Some(NoSpecial)
    else None
  }

  /** The checks run in the order length, upper case, lower case, digit, special character. */
  lemma FirstFailingCheckReported(pwd: string)
    ensures |pwd| < MinLength ==> ValidatePassword(pwd) == Some(TooShort)
    ensures |pwd| >= MinLength && !AnyChar(pwd, IsUpperLetter) ==>
              ValidatePassword(pwd) == Some(NoUppercase)
    ensures |pwd| >= MinLength && AnyChar(pwd, IsUpperLetter) && !AnyChar(pwd, IsLowerLetter) ==>
              ValidatePassword(pwd) == Some(NoLowercase)
    ensures |pwd| >= MinLength && AnyChar(pwd, IsUpperLetter) && AnyChar(pwd, IsLowerLetter) &&
            !AnyChar(pwd, IsDigit) ==>
              ValidatePassword(pwd) == Some(NoDigit)
    ensures |pwd| >= MinLength && AnyChar(pwd, IsUpperLetter) && AnyChar(pwd, IsLowerLetter) &&
            AnyChar(pwd, IsDigit) && !AnyChar(pwd, IsSpecial) ==>
              ValidatePassword(pwd) == Some(NoSpecial)
  {
  }

  /** A hyphen or an underscore does not count as a special character. */
  lemma HyphenAndUnderscoreNotSpecial()
    ensures !IsSpecial('-') && !IsSpecial('_')
  {
  }

  /** A password made only of letters, digits, hyphens and underscores never passes the policy. */
  lemma HyphenatedPasswordRejected(pwd: string)
    requires forall i :: 0 <= i < |pwd| ==>
               IsUpperLetter(pwd[i]) || IsLowerLetter(pwd[i]) || IsDigit(pwd[i]) || pwd[i] in "-_"
    ensures ValidatePassword(pwd).Some?
  {
    forall i | 0 <= i < |pwd| ensures !IsSpecial(pwd[i]) {
      var c := pwd[i];
      assert forall k :: 0 <= k < |SpecialCharacters| ==> SpecialCharacters[k] != c;
    }
  }

  lemma ExclamationPasswordAccepted()
    ensures ValidatePassword("Passw0rd!") == None
  {
    var p := "Passw0rd!";
    assert IsUpperLetter(p[0]) && IsLowerLetter(p[1]) && IsDigit(p[5]);
    assert IsSpecial(p[8]) by { assert SpecialCharacters[0] == '!'; }
  }

  /** What the submit handler reports before sending anything, in its order of checks. */
  function SubmitCheck(password: string, confirm: string, token: Option<string>): (r: Option<string>)
  {
    if ValidatePassword(password).Some? then ValidatePassword(password)
    else if password != confirm then Some(Mismatch)
    else if !Truthy(token) then Some(MissingToken)
    else None
  }

  /** A weak password is reported before a mismatch, and a mismatch before a missing token. */
  lemma SubmitCheckOrder(password: string, confirm: string, token: Option<string>)
    ensures !Strong(password) ==> SubmitCheck(password, confirm, token) == ValidatePassword(password)
    ensures Strong(password) && password != confirm ==> SubmitCheck(password, confirm, token) == Some(Mismatch)
    ensures Strong(password) && password == confirm && !Truthy(token) ==>
              SubmitCheck(password, confirm, token) == Some(MissingToken)
  {
  }

  /** The request goes out exactly when the password is strong, confirmed, and a token is present. */
  lemma SubmitsIffAllChecksPass(password: string, confirm: string, token: Option<string>)
    ensures SubmitCheck(password, confirm, token).None? <==>
              Strong(password) && password == confirm && Truthy(token)
  {
  }

  datatype Status = Idle | Loading | Succeeded | Failed

  /** The body posted to the set-password endpoint. */
  datatype Request = Request(token: string, password: string)

  /** How the request ended: accepted, refused with an optional error text, or failed in transit. */
  datatype Reply = Accepted | Refused(error: Option<string>) | Unreachable(message: string)

  class SetPasswordForm {
    /** The `token` query parameter of the link. */
    const token: Option<string>
    var password: string
    var confirm: string
    var status: Status
    var message: string
    /** Requests issued so far. */
    var sent: seq<Request>

    constructor (token: Option<string>)
      ensures this.token == token && password == "" && confirm == ""
      ensures status == Idle && message == "" && sent == []
    {
      this.token := token;
      password, confirm := "", "";
      status, message := Idle, "";
      sent := [];
    }

    /** `handleSubmit`; `reply` is what the server answers if the request is sent. */
    method HandleSubmit(reply: Reply)
      modifies this
      ensures password == old(password) && confirm == old(confirm)
      ensures var check := SubmitCheck(password, confirm, token);
        check.Some? ==> status == Failed && message == check.value && sent == old(sent)
      ensures var check := SubmitCheck(password, confirm, token);
        check.None? ==>
          && token.Some?
          && sent == old(sent) + [Request(token.value, password)]
          && (reply.Accepted? ==> status == Succeeded && message == "")
          && (reply.Refused? ==>
                status == Failed &&
                message == (if Truthy(reply.error) then reply.error.value else GenericError))
          && (reply.Unreachable? ==> status == Failed && message == reply.message)
    {
      status := Idle;
      message := "";

      var passwordError := ValidatePassword(password);
      if passwordError.Some? {
        status := Failed;
        message := passwordError.value;
        return;
      }
      if password != confirm {
        status := Failed;
        message := Mismatch;
        return;
      }
      if !Truthy(token) {
        status := Failed;
        message := MissingToken;
        return;
      }

      status := Loading;
      sent := sent + [Request(token.value, password)];
      match reply
      case Accepted =>
        status := Succeeded;
      case Refused(error) =>
        status := Failed;
        message := if Truthy(error) then error.value else GenericError;
      case Unreachable(m) =>
        status := Failed;
        message := m;
    }
  }
}
