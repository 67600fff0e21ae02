/** The authentication session kept by the auth provider
    (src/context/AuthContext.tsx): the `user` and `isLoading` state cells,
    the token under the `jwt_token` storage key, login, register, logout
    and the rehydration run once at start-up. Each remote call is one
    atomic step whose outcome is a parameter. */
module Session {
  import opened Wrappers
  import Guard
  import Cart

  datatype UserProfile = UserProfile(id: string, email: string, firstname: string, lastname: string, birthDate: string)

  /** Outcome of the sign-in or sign-up call. */
  datatype AuthResponse = Authenticated(user: UserProfile, accessToken: string) | AuthRejected(message: string)

  /** Outcome of the who-am-I call. */
  datatype MeResponse = Me(user: UserProfile) | MeRejected

  /** How an awaited login or register ends for its caller: it resolves,
      the remote call's error propagates, or the token write throws and its
      error propagates instead. */
  datatype Completion = Resolved | Thrown(message: string) | StorageThrew

  /** What the provider renders: the session loading message instead of its
      children, or its children inside the context. */
  datatype ProviderView = SessionLoadingMessage | ProvideContext

  /** Rehydration tests the stored token for truthiness: a missing token and
      the empty string both count as no token. */
  predicate TokenPresent(token: Option<string>) {
    token.Some? && token.value != ""
  }

  class AuthProvider {
    var user: Option<UserProfile>
    var isLoading: bool
    /** The value under the `jwt_token` storage key. */
    var token: Option<string>

    /** Mounting: no user, loading, and whatever token storage already holds. */
    constructor (storedToken: Option<string>)
      ensures user == None && isLoading && token == storedToken
    {
      user := None;
      isLoading := true;
      token := storedToken;
    }

    function IsAuthenticated(): (b: bool)
      reads this
      ensures b <==> user != None
    {
      user.Some?
    }

    /** While loading, the provider shows the loading message instead of its children. */
    function Rendered(): (v: ProviderView)
      reads this
      ensures v == SessionLoadingMessage <==> isLoading
    {
      if isLoading then SessionLoadingMessage else ProvideContext
    }

    /** The route guard's decision for `pathname`, made from this session. */
    function GuardDecision(pathname: string): (d: Guard.Decision)
      reads this
      ensures d.RenderChildren? <==> !isLoading && user != None
      ensures d.Redirect? <==> !isLoading && user == None
    {
      Guard.Decide(isLoading, IsAuthenticated(), pathname)
    }

    /** login: on success, store the token and then set the user; on
        failure the error propagates before anything changes. `writeOk`
        says whether the unguarded token write succeeds; when it throws,
        the call rejects after the remote call and before the user is set. */
    method Login(response: AuthResponse, writeOk: bool) returns (outcome: Completion)
      modifies this
      ensures response.Authenticated? && writeOk ==>
                outcome == Resolved && user == Some(response.user) && token == Some(response.accessToken)
      ensures response.Authenticated? && !writeOk ==>
                outcome == StorageThrew && user == old(user) && token == old(token)
      ensures response.AuthRejected? ==>
                outcome == Thrown(response.message) && user == old(user) && token == old(token)
      ensures isLoading == old(isLoading)
    {
      match response
      case AuthRejected(message) =>
        outcome := Thrown(message);
      case Authenticated(u, accessToken) =>
        if !writeOk {
          outcome := StorageThrew;
          return;
        }
        token := Some(accessToken);
        user := Some(u);
        outcome := Resolved;
    }

    /** register: the same paths as login, over the sign-up call. */
    method Register(response: AuthResponse, writeOk: bool) returns (outcome: Completion)
      modifies this
      ensures response.Authenticated? && writeOk ==>
                outcome == Resolved && user == Some(response.user) && token == Some(response.accessToken)
      ensures response.Authenticated? && !writeOk ==>
                outcome == StorageThrew && user == old(user) && token == old(token)
      ensures response.AuthRejected? ==>
                outcome == Thrown(response.message) && user == old(user) && token == old(token)
      ensures isLoading == old(isLoading)
    {
      match response
      case AuthRejected(message) =>
        outcome := Thrown(message);
      case Authenticated(u, accessToken) =>
        if !writeOk {
          outcome := StorageThrew;
          return;
        }
        token := Some(accessToken);
        user := Some(u);
        outcome := Resolved;
    }

    /** logout: remove the token and clear the user. Once logged out, a
        second logout changes nothing. */
    method Logout()
      modifies this
      ensures user == None && token == None
      ensures isLoading == old(isLoading)
      ensures old(user) == None && old(token) == None ==> unchanged(this)
    {
      token := None;
      user := None;
    }

    /** The start-up effect. Without a token it stops loading and makes no
        remote call; with one it asks who the user is, keeps the answer or
        logs out on failure, and stops loading on both paths. `readOk` says
        whether the unguarded token read succeeds; when it throws, the
        effect throws with nothing changed and `isLoading` still true.
        `queried` says whether the remote call was made. */
    method Rehydrate(readOk: bool, me: MeResponse) returns (queried: bool)
      modifies this
      ensures !readOk ==> !queried && unchanged(this)
      ensures readOk ==> !isLoading
      ensures queried == (readOk && TokenPresent(old(token)))
      ensures readOk && !queried ==> user == old(user) && token == old(token)
      ensures queried && me.Me? ==> user == Some(me.user) && token == old(token)
      ensures queried && me.MeRejected? ==> user == None && token == None
    {
      if !readOk {
        queried := false;
        return;
      }
      if !TokenPresent(token) {
        isLoading := false;
        queried := false;
        return;
      }
      queried := true;
      match me {
        case Me(u) =>
          user := Some(u);
        case MeRejected =>
          Logout();
      }
      isLoading := false;
    }
  }

  /** Start-up from a fresh provider. When the token read succeeds, loading
      is over and the children render; when it throws, the effect throws with
      the session still loading, unauthenticated and holding the stored token.
      The session is authenticated exactly when the read succeeded, a token
      was stored and the who-am-I call succeeded. */
  method Startup(storedToken: Option<string>, readOk: bool, me: MeResponse) returns (p: AuthProvider)
    ensures fresh(p)
    ensures readOk ==> !p.isLoading && p.Rendered() == ProvideContext
    ensures !readOk ==> p.isLoading && p.user == None && p.token == storedToken
    ensures p.IsAuthenticated() <==> readOk && TokenPresent(storedToken) && me.Me?
    ensures !TokenPresent(storedToken) ==> p.token == storedToken
  {
    p := new AuthProvider(storedToken);
    var _ := p.Rehydrate(readOk, me);
  }

  /** Under the provider the guard never shows its own loading message: the
      provider renders its children only once loading is over. */
  lemma GuardUnderProviderNeverWaits(p: AuthProvider, pathname: string)
    requires p.Rendered() == ProvideContext
    ensures p.GuardDecision(pathname) != Guard.ShowLoading
  {
  }

  /** Logging out leaves the cart, in memory and in storage, untouched. */
  method LogoutKeepsCart(auth: AuthProvider, cart: Cart.CartProvider)
    modifies auth
    ensures auth.user == None && auth.token == None
    ensures cart.cartItems == old(cart.cartItems) && cart.storage == old(cart.storage)
  {
    auth.Logout();
  }
}
