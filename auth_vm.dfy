/**
  `AuthViewModel`: the signed-in user as the screens see it, over the shared
  `AuthService`. Each `async` action is split at its await; the awaited service
  call runs to completion in the second step, and the sign-in's platform inputs are
  passed through to the service.
 */
module AuthView {
  import opened Wrappers
  import opened Utf8
  import opened Constants
  import opened Models
  import opened ApiError
  import opened Gateway
  import opened Keychain
  import opened AuthServiceModel

  class AuthViewModel {
    const service: AuthService
    var user: Option<User>
    var isAuthenticated: bool
    var isLoading: bool
    var errorMessage: Option<string>

    /** The pair every method leaves consistent. */
    predicate Valid()
      reads this
    {
      isAuthenticated <==> user.Some?
    }

    /** `init()`: the fields take their declared values and the session check is only
        spawned; it runs later as `BeginCheck` followed by `FinishCheck`. */
    constructor (service: AuthService)
      ensures this.service == service && Valid()
      ensures user == None && !isAuthenticated && !isLoading && errorMessage == None
    {
      this.service := service;
      user := None;
      isAuthenticated := false;
      isLoading := false;
      errorMessage := None;
    }

    /** `checkAuthStatus()` up to its await: loading starts, nothing else changes. */
    method BeginCheck()
      modifies this
      ensures isLoading
      ensures user == old(user) && isAuthenticated == old(isAuthenticated) && errorMessage == old(errorMessage)
    {
      isLoading := true;
    }

    /** `checkAuthStatus()` from its await on: the service's restore runs (clearing the
        stored user when no token is found), and the view model adopts what it restores. */
    method FinishCheck()
      modifies this, service
      ensures Valid() && !isLoading && errorMessage == old(errorMessage)
      ensures user == Restored(service.keychain.Lookup(JwtTokenKey), old(service.userSlot))
      ensures service.userSlot == if service.keychain.Lookup(JwtTokenKey).None? then None else old(service.userSlot)
    {
      var restored := service.CheckAuthStatus();
      if restored.Some? {
        user := restored;
        isAuthenticated := true;
      } else {
        user := None;
        isAuthenticated := false;
      }
      isLoading := false;
    }

    /** `signInWithGoogle()` up to its await: loading starts and the error is cleared. */
    method BeginSignIn()
      modifies this
      ensures isLoading && errorMessage == None
      ensures user == old(user) && isAuthenticated == old(isAuthenticated)
    {
      isLoading := true;
      errorMessage := None;
    }

    /** `signInWithGoogle()` from its await on: the service's sign-in runs; on success
        its user is signed in, on failure only the error text changes. */
    method FinishSignIn(hasRootViewController: bool, google: GoogleResult, env: Environment,
                        decode: seq<Byte> -> Result<AuthResponse, string>)
      returns (r: Result<AuthResponse, Failure>)
      requires Valid()
      modifies this, service, service.keychain
      ensures Valid() && !isLoading
      ensures hasRootViewController && google.GoogleUser? && google.idToken.Some? ==>
        r == LoginOutcome(google.idToken.value, env, decode)
      ensures r.Ok? ==> hasRootViewController && google.GoogleUser? && google.idToken.Some?
      ensures r.Ok? ==> user == Some(r.value.user) && isAuthenticated && errorMessage == old(errorMessage)
      ensures r.Err? ==> user == old(user) && isAuthenticated == old(isAuthenticated)
      ensures r.Err? ==> errorMessage == Some(LocalizedDescription(r.error))
      ensures r.Ok? ==> service.userSlot == Some(Decodable(r.value.user))
      ensures r.Ok? ==>
        service.keychain.items == Added(old(service.keychain.items), old(service.keychain.reachable), JwtTokenKey, Encode(r.value.token))
      ensures r.Err? ==> service.userSlot == old(service.userSlot) && service.keychain.items == old(service.keychain.items)
      ensures service.keychain.reachable == old(service.keychain.reachable)
    {
      r := service.SignInWithGoogle(hasRootViewController, google, env, decode);
      match r {
        case Ok(response) =>
          user := Some(response.user);
          isAuthenticated := true;
        case Err(f) =>
          errorMessage := Some(LocalizedDescription(f));
      }
      isLoading := false;
    }

    /** `signOut()`: the service clears its stores, and the user is signed out. */
    method SignOut()
      modifies this, service, service.keychain
      ensures Valid() && user == None && !isAuthenticated
      ensures isLoading == old(isLoading) && errorMessage == old(errorMessage)
      ensures service.userSlot == None
      ensures service.keychain.items
        == Deleted(Deleted(old(service.keychain.items), old(service.keychain.reachable), JwtTokenKey), old(service.keychain.reachable), UserIdKey)
    {
      service.SignOut();
      user := None;
      isAuthenticated := false;
    }
  }
}
