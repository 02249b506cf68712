/** The decoded backend records that the core passes around. */
module Models {
  import opened Wrappers
  import opened Text

  /** A timestamp, as decoded by the date strategy (seconds since the epoch). */
  type Date = int

  datatype User = User(id: string, email: string, name: Option<string>, profilePhoto: Option<string>, createdAt: Date)

  /** `{token, user}` returned by the Google login endpoint. */
  datatype AuthResponse = AuthResponse(token: string, user: User)

  /** The backend's error envelope `{success, error}`. */
  datatype ErrorResponse = ErrorResponse(success: bool, error: string)

  /** `User.displayName`: the explicit name, else the first `@`-separated piece of
      the email, else "User". */
  function DisplayName(u: User): string
  {
    match u.name
    case Some(n) => n
    case None =>
      var parts := Components(u.email, '@');
      if |parts| > 0 then parts[0] else "User"
  }

  /** A present name is shown verbatim, even when empty. */
  lemma DisplayNamePrefersName(u: User)
    requires u.name.Some?
    ensures DisplayName(u) == u.name.value
  {
  }

  /** Without a name, the display name is the part of the email before the first "@"
      (the whole email when it has none); it never contains "@". Being a prefix of
      the email, it is never the "User" fallback (unless the email starts so):
      splitting always yields a first piece, "" for an empty email. */
  lemma DisplayNameFromEmail(u: User)
    requires u.name.None?
    ensures var d := DisplayName(u);
      && '@' !in d
      && d <= u.email
      && (|d| < |u.email| ==> u.email[|d|] == '@')
      && ('@' !in u.email ==> d == u.email)
  {
  }
}
