/**
  `AuthService`: the Google sign-in flow, session restore and sign-out over the
  keychain and the `UserDefaults` slot holding the signed-in user.
  The window lookup and the Google SDK are inputs: whether a root view controller
  was found, and what the SDK's sign-in produced.
 */
module AuthServiceModel {
  import opened Wrappers
  import opened Utf8
  import opened Constants
  import opened Models
  import opened ApiError
  import opened Gateway
  import opened Keychain

  /** The data under `CurrentUserKey` in `UserDefaults`: either a `User` the JSON
      decoder accepts, or bytes it rejects. */
  datatype StoredUser = Decodable(user: User) | Undecodable

  /** What `GIDSignIn.signIn(withPresenting:)` produced: a thrown error, or a Google
      user whose ID token may be missing. */
  datatype GoogleResult = GoogleError(description: string) | GoogleUser(idToken: Option<string>)

  const NoRootViewControllerCode: int := -1
  const NoRootViewControllerText: string := "Unable to find root view controller"
  const NoIdTokenCode: int := -2
  const NoIdTokenText: string := "Failed to get ID token from Google"

  /** `loadUser()`. */
  function LoadUser(slot: Option<StoredUser>): (r: Option<User>)
    ensures r.Some? <==> slot.Some? && slot.value.Decodable?
  {
    if slot.Some? && slot.value.Decodable? then Some(slot.value.user) else None
  }

  /** What `checkAuthStatus` answers for a token found (or not) in the keychain and the
      stored user: a user only when both are there. */
  function Restored(token: Option<string>, slot: Option<StoredUser>): Option<User>
  {
    if token.None? then None else LoadUser(slot)
  }

  class AuthService {
    const keychain: KeychainStore
    var userSlot: Option<StoredUser>

    constructor (keychain: KeychainStore, userSlot: Option<StoredUser>)
      ensures this.keychain == keychain && this.userSlot == userSlot
    {
      this.keychain := keychain;
      this.userSlot := userSlot;
    }

    /** `saveUser(_:)`: encoding a `User` as JSON does not fail, and the default
        decoder reads it back. */
    method SaveUser(user: User)
      modifies this
      ensures userSlot == Some(Decodable(user))
    {
      userSlot := Some(Decodable(user));
    }

    /** `clearUser()`. */
    method ClearUser()
      modifies this
      ensures userSlot == None
    {
      userSlot := None;
    }

    /** `signInWithGoogle()`: the window check, the Google step, the login exchange;
        on success the token is saved (a failed save is only logged) and the user
        stored. Nothing is stored on any failure. */
    method SignInWithGoogle(hasRootViewController: bool, google: GoogleResult, env: Environment,
                            decode: seq<Byte> -> Result<AuthResponse, string>)
      returns (r: Result<AuthResponse, Failure>)
      modifies this, keychain
      ensures !hasRootViewController ==> r == Err(SignInError(NoRootViewControllerCode, NoRootViewControllerText))
      ensures hasRootViewController && google.GoogleError? ==> r == Err(Foreign(google.description))
      ensures hasRootViewController && google.GoogleUser? && google.idToken.None? ==>
        r == Err(SignInError(NoIdTokenCode, NoIdTokenText))
      ensures r.Ok? ==> hasRootViewController && google.GoogleUser? && google.idToken.Some?
      ensures hasRootViewController && google.GoogleUser? && google.idToken.Some? ==>
        r == LoginOutcome(google.idToken.value, env, decode)
      ensures r.Err? ==> userSlot == old(userSlot) && keychain.items == old(keychain.items)
      ensures r.Ok? ==> userSlot == Some(Decodable(r.value.user))
      ensures r.Ok? ==> keychain.items == Added(old(keychain.items), old(keychain.reachable), JwtTokenKey, Encode(r.value.token))
      ensures keychain.reachable == old(keychain.reachable)
    {
      if !hasRootViewController {
        return Err(SignInError(NoRootViewControllerCode, NoRootViewControllerText));
      }
      match google
      case GoogleError(d) =>
        return Err(Foreign(d));
      case GoogleUser(idToken) =>
        if idToken.None? {
          return Err(SignInError(NoIdTokenCode, NoIdTokenText));
        }
        var outcome, _ := LoginWithGoogle(idToken.value, env, decode);
        if outcome.Err? {
          return Err(outcome.error);
        }
        var response := outcome.value;
        var _ := keychain.Save(response.token, JwtTokenKey);
        SaveUser(response.user);
        return Ok(response);
    }

    /** `checkAuthStatus()`: with no token the stored user is cleared; with a token the
        stored user is returned when it decodes, and the token is kept either way. */
    method CheckAuthStatus() returns (u: Option<User>)
      modifies this
      ensures u == Restored(keychain.Lookup(JwtTokenKey), old(userSlot))
      ensures userSlot == if keychain.Lookup(JwtTokenKey).None? then None else old(userSlot)
    {
      var token := keychain.Load(JwtTokenKey);
      if token.None? {
        ClearUser();
        return None;
      }
      u := LoadUser(userSlot);
    }

    /** `signOut()`: the Google SDK's own sign-out, then the keychain and the stored
        user are cleared. */
    method SignOut()
      modifies this, keychain
      ensures keychain.items == Deleted(Deleted(old(keychain.items), old(keychain.reachable), JwtTokenKey), old(keychain.reachable), UserIdKey)
      ensures keychain.reachable == old(keychain.reachable)
      ensures userSlot == None
    {
      keychain.ClearAll();
      ClearUser();
    }
  }

  /** A session is restored exactly when a token is found and the stored user decodes;
      then it is that user. */
  lemma RestoredIff(token: Option<string>, slot: Option<StoredUser>)
    ensures Restored(token, slot).Some? <==> token.Some? && slot.Some? && slot.value.Decodable?
    ensures Restored(token, slot).Some? ==> Restored(token, slot).value == slot.value.user
  {
  }

  /** Signing in on a reachable keychain holding no token makes the next
      `checkAuthStatus` restore the signed-in user. */
  lemma SignInIsRestored(items: map<string, seq<Byte>>, response: AuthResponse)
    requires JwtTokenKey !in items
    ensures Restored(LookupIn(Added(items, true, JwtTokenKey, Encode(response.token)), true, JwtTokenKey),
                     Some(Decodable(response.user))) == Some(response.user)
  {
    SaveThenLoad(items, true, JwtTokenKey, response.token);
  }

  /** After sign-out on a reachable keychain, `checkAuthStatus` restores nothing. */
  lemma SignedOutIsNotRestored(items: map<string, seq<Byte>>, slot: Option<StoredUser>)
    ensures Restored(LookupIn(Deleted(Deleted(items, true, JwtTokenKey), true, UserIdKey), true, JwtTokenKey), slot) == None
  {
    ClearAllForgetsCredentials(items, true);
  }

  /** A sign-in while an earlier token is still in the keychain (possible when the
      stored user was missing, so `checkAuthStatus` answered nil but kept the token)
      reports success, yet the keychain keeps serving the earlier token. */
  lemma SignInOverStaleToken(items: map<string, seq<Byte>>, stale: string, response: AuthResponse)
    requires JwtTokenKey !in items
    ensures var before := Added(items, true, JwtTokenKey, Encode(stale));
      && Restored(LookupIn(before, true, JwtTokenKey), None) == None
      && LookupIn(Added(before, true, JwtTokenKey, Encode(response.token)), true, JwtTokenKey) == Some(stale)
  {
    SaveDoesNotReplace(items, true, JwtTokenKey, stale, response.token);
  }
}
