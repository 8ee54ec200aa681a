/** `cleanErrorMessage` of src/firebase/auth.ts: friendlier text for sign-in failures. */
module Auth {
  import opened JsString

  const UserNotFound: string := "auth/user-not-found"
  const InvalidCredential: string := "auth/invalid-credential"
  const TooManyRequests: string := "auth/too-many-requests"

  // Each text is written as two sentences so that facts about its characters can be shown sentence by sentence.
  const InvalidLoginText: string := "Invalid email or password." + " Please try again."
  const TooManyAttemptsText: string := "Too many failed attempts." + " Please try again later."

  /** A credential failure code appears in the message. */
  predicate NamesBadCredentials(message: string) {
    Includes(message, UserNotFound) || Includes(message, InvalidCredential)
  }

  function CleanErrorMessage(message: string): (r: string)
    ensures NamesBadCredentials(message) ==> r == InvalidLoginText
    ensures !NamesBadCredentials(message) && Includes(message, TooManyRequests) ==> r == TooManyAttemptsText
    ensures !NamesBadCredentials(message) && !Includes(message, TooManyRequests) ==> r == message
  {
    if NamesBadCredentials(message) then InvalidLoginText
    else if Includes(message, TooManyRequests) then TooManyAttemptsText
    else message
  }

  lemma LoginTextHasNoSlash()
    ensures '/' !in InvalidLoginText
  {
    var a, b := "Invalid email or password.", " Please try again.";
    assert forall i | 0 <= i < |a| :: a[i] != '/';
    assert forall i | 0 <= i < |b| :: b[i] != '/';
  }

  lemma AttemptsTextHasNoSlash()
    ensures '/' !in TooManyAttemptsText
  {
    var a, b := "Too many failed attempts.", " Please try again later.";
    assert forall i | 0 <= i < |a| :: a[i] != '/';
    assert forall i | 0 <= i < |b| :: b[i] != '/';
  }

  /** Neither replacement text carries an error code: every code has a '/', the texts have none. */
  lemma TextsCarryNoCode(text: string)
    requires text == InvalidLoginText || text == TooManyAttemptsText
    ensures !NamesBadCredentials(text) && !Includes(text, TooManyRequests)
  {
    LoginTextHasNoSlash();
    AttemptsTextHasNoSlash();
    assert UserNotFound[4] == '/' && InvalidCredential[4] == '/' && TooManyRequests[4] == '/';
    ExcludesByChar(text, UserNotFound, '/');
    ExcludesByChar(text, InvalidCredential, '/');
    ExcludesByChar(text, TooManyRequests, '/');
  }

  /** Cleaning an already cleaned message returns it unchanged. */
  lemma CleanIdempotent(message: string)
    ensures CleanErrorMessage(CleanErrorMessage(message)) == CleanErrorMessage(message)
  {
    var r := CleanErrorMessage(message);
    if r == InvalidLoginText || r == TooManyAttemptsText {
      TextsCarryNoCode(r);
    }
  }

  /** A message naming both a credential code and the rate limit is reported as a credential failure. */
  lemma CredentialCodeWins(message: string)
    requires Includes(message, InvalidCredential) && Includes(message, TooManyRequests)
    ensures CleanErrorMessage(message) == InvalidLoginText
  {
  }
}
