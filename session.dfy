/**
 * The session façade (src/routes/routes.js): the `isAuthenticated` flag and
 * the three operations that drive it, `checkAuthStatus`, `login` and
 * `logout`.
 *
 * The token store these operations call (`getAccessToken`, `setTokens`,
 * `removeTokens`), the inactivity timer (`resetInactivityTimer`) and the
 * refresh call (`refreshAccessToken`) are collaborators whose code is not
 * part of this model. The store is abstract state (the tokens it holds, if
 * any), which `setTokens` and `removeTokens` update; every collaborator call
 * is recorded, in order, in `calls`; the refresh's outcome is a parameter,
 * and the tokens it would install in the store are not modelled.
 */
module Session {
  import opened Common

  /** What the token store holds after `setTokens(access, refresh, remember)`. */
  datatype Tokens = Tokens(access: string, refresh: string, remember: bool)

  /** A call into a collaborator. */
  datatype Call =
    | GetAccessToken
    | SetTokens(tokens: Tokens)
    | RemoveTokens
    | RefreshAccessToken
    | ResetInactivityTimer

  /** `getAccessToken()` is truthy: a token is held and it is not the empty string. */
  predicate HasAccessToken(tokens: Option<Tokens>) {
    tokens.Some? && tokens.value.access != ""
  }

  class Auth {
    /** The `isAuthenticated` store. */
    var authenticated: bool
    /** The abstract token store. */
    var tokens: Option<Tokens>
    /** Collaborator calls made so far, oldest first. */
    var calls: seq<Call>

    /** The flag is only ever set while the token store holds tokens. */
    ghost predicate Valid()
      reads this
    {
      authenticated ==> tokens.Some?
    }

    /**
     * Module load: `isAuthenticated` starts false and `checkAuthStatus` runs
     * once, with `refreshSucceeds` the outcome of its refresh call.
     */
    constructor Load(stored: Option<Tokens>, refreshSucceeds: bool)
      ensures Valid()
      ensures authenticated == (HasAccessToken(stored) && refreshSucceeds)
      ensures calls == if !HasAccessToken(stored) then [GetAccessToken]
                       else if refreshSucceeds then [GetAccessToken, RefreshAccessToken]
                       else [GetAccessToken, RefreshAccessToken, RemoveTokens]
      ensures tokens == if HasAccessToken(stored) && !refreshSucceeds then None else stored
    {
      authenticated := false;
      tokens := stored;
      calls := [];
      new;
      var _ := CheckAuthStatus(refreshSucceeds);
    }

    /** `checkAuthStatus`: no token means signed out with no refresh; otherwise the refresh decides. */
    method CheckAuthStatus(refreshSucceeds: bool) returns (result: bool)
      modifies this
      ensures Valid()
      ensures result == authenticated
      ensures !HasAccessToken(old(tokens)) ==>
        !authenticated && tokens == old(tokens) && calls == old(calls) + [GetAccessToken]
      ensures HasAccessToken(old(tokens)) && refreshSucceeds ==>
        authenticated && tokens == old(tokens) &&
        calls == old(calls) + [GetAccessToken, RefreshAccessToken]
      ensures HasAccessToken(old(tokens)) && !refreshSucceeds ==>
        !authenticated && tokens == None &&
        calls == old(calls) + [GetAccessToken, RefreshAccessToken, RemoveTokens]
    {
      calls := calls + [GetAccessToken];
      if !HasAccessToken(tokens) {
        authenticated := false;
        return false;
      }
      calls := calls + [RefreshAccessToken];
      if refreshSucceeds {
        authenticated := true;
        return true;
      }
      authenticated := false;
      RemoveAll();
      return false;
    }

    /** `login(access, refresh, remember = false)`: store the tokens, set the flag, reset the inactivity timer. */
    method Login(access: string, refresh: string, remember: Option<bool>)
      modifies this
      ensures Valid()
      ensures authenticated
      ensures tokens == Some(Tokens(access, refresh, remember.GetOr(false)))
      ensures calls == old(calls) + [SetTokens(Tokens(access, refresh, remember.GetOr(false))), ResetInactivityTimer]
    {
      var stored := Tokens(access, refresh, remember.GetOr(false));
      tokens := Some(stored);
      calls := calls + [SetTokens(stored)];
      authenticated := true;
      calls := calls + [ResetInactivityTimer];
    }

    /** `logout`: remove the tokens and clear the flag. */
    method Logout()
      modifies this
      ensures Valid()
      ensures !authenticated && tokens == None
      ensures calls == old(calls) + [RemoveTokens]
    {
      RemoveAll();
      authenticated := false;
    }

    /** `removeTokens()` on the abstract store. */
    method RemoveAll()
      modifies this
      ensures tokens == None && authenticated == old(authenticated)
      ensures calls == old(calls) + [RemoveTokens]
    {
      tokens := None;
      calls := calls + [RemoveTokens];
    }
  }
}
