/** The authentication error page (app/auth/error/page.tsx): the `error`
    query parameter, if any, selects one of four fixed messages.  Matching is
    exact string equality, so it is case-sensitive, and anything not listed
    falls back to the generic message. */
module AuthError {
  import opened Wrappers

  const UnknownMessage: string := "An unknown error occurred during authentication."
  const ConfigurationMessage: string := "There is a problem with the server configuration."
  const AccessDeniedMessage: string := "You do not have access to this resource."
  const VerificationMessage: string := "The verification link may have been used or is invalid."

  /** The four messages the page can show. */
  const Messages: set<string> :=
    {UnknownMessage, ConfigurationMessage, AccessDeniedMessage, VerificationMessage}

  /** The page's `if / else if` chain over `searchParams.get("error")`, which is
      None when the parameter is absent. */
  function ErrorMessage(error: Option<string>): (m: string)
    ensures m in Messages
    ensures m == ConfigurationMessage <==> error == Some("Configuration")
    ensures m == AccessDeniedMessage <==> error == Some("AccessDenied")
    ensures m == VerificationMessage <==> error == Some("Verification")
    ensures m == UnknownMessage <==>
              error !in {Some("Configuration"), Some("AccessDenied"), Some("Verification")}
  {
    if error == Some("Configuration") then ConfigurationMessage
    else if error == Some("AccessDenied") then AccessDeniedMessage
    else if error == Some("Verification") then VerificationMessage
    else UnknownMessage
  }

  // ---------------------------------------------------------------------------
  // A closed enumeration of the error kinds

  /** The error kinds the page distinguishes. */
  datatype ErrorKind = Configuration | AccessDenied | Verification | Unknown

  /** The query value that names a kind; Unknown has none. */
  function CodeOf(k: ErrorKind): Option<string> {
    match k
    case Configuration => Some("Configuration")
    case AccessDenied => Some("AccessDenied")
    case Verification => Some("Verification")
    case Unknown => None
  }

  /** Reads a query value as an error kind. */
  function Parse(error: Option<string>): (k: ErrorKind)
    ensures k != Unknown ==> CodeOf(k) == error
    ensures k == Unknown ==> forall j :: j != Unknown ==> CodeOf(j) != error
  {
    match error
    case Some("Configuration") => Configuration
    case Some("AccessDenied") => AccessDenied
    case Some("Verification") => Verification
    case _ => Unknown
  }

  function MessageOf(k: ErrorKind): string {
    match k
    case Configuration => ConfigurationMessage
    case AccessDenied => AccessDeniedMessage
    case Verification => VerificationMessage
    case Unknown => UnknownMessage
  }

  /** The page's message is the message of the parsed kind, and distinct kinds
      give distinct messages, so the message determines the kind. */
  lemma ErrorMessageByKind(error: Option<string>)
    ensures ErrorMessage(error) == MessageOf(Parse(error))
    ensures forall k :: MessageOf(k) == ErrorMessage(error) ==> k == Parse(error)
  {
  }

  /** Every kind's own code reads back as that kind and yields its message. */
  lemma CodeRoundTrip(k: ErrorKind)
    ensures Parse(CodeOf(k)) == k
    ensures ErrorMessage(CodeOf(k)) == MessageOf(k)
  {
  }

  /** Matching is case-sensitive: the lower-case spellings are unknown. */
  lemma CaseSensitive()
    ensures ErrorMessage(Some("configuration")) == UnknownMessage
    ensures ErrorMessage(Some("accessdenied")) == UnknownMessage
    ensures ErrorMessage(Some("verification")) == UnknownMessage
    ensures ErrorMessage(None) == UnknownMessage
    ensures ErrorMessage(Some("")) == UnknownMessage
  {
  }
}
