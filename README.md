# World Cup storefront: cart, session and route guard

A Dafny model of the state logic inside a React ticket storefront. The rest of
the storefront is presentational.

- **Cart** (`cart.dfy`, module `Cart`). The cart provider holds an ordered list of
  `CartItem {matchId, matchName, categoryName, price, quantity}`, one line per
  `(matchId, categoryName)` key. Its three reducers (add, update quantity, remove) are pure
  functions of the previous list. They are built from the same `find`, `map` and `filter`
  steps the source uses. The provider is a class with a `cartItems` field that each reducer
  replaces and a `storage` field for the stored cart. The ticket count that the cart page
  and the navigation bar compute is the function `TotalTickets`.
- **Session** (`session.dfy`, module `Session`). The auth provider is a class with the
  `user` and `isLoading` state cells and the token stored under `jwt_token`. It has login,
  register, logout and the start-up rehydration effect. Each remote call (sign-in,
  sign-up, who-am-I) is one atomic step, and its outcome is a parameter.
- **Route guard** (`guard.dfy`, module `Guard`). The guard makes a three-way decision over
  `(isLoading, isAuthenticated)`. The login page then picks where to return to.
- **Team-name translation** (`translations.dfy`, module `Translations`). A fixed
  English-to-French table and a lookup that falls back to the name it was given.
- `wrappers.dfy` holds the `Option` type.

## Model

| member | source | states |
|---|---|---|
| `Cart.FindLine` | src/context/CartContext.tsx:68-70 | Finds a line exactly when one with the key exists, and returns the first such line. |
| `Cart.IncrementLine` | src/context/CartContext.tsx:75-80 | Keeps the length and order. Every line of the key gets quantity + 1, and every other line is unchanged. |
| `Cart.SetLineQuantity` | src/context/CartContext.tsx:106-110 | Keeps the length and order. Every line of the key gets the new quantity, and every other line is unchanged. |
| `Cart.Add` | src/context/CartContext.tsx:66-94 | The result always has a line for the key. Its length is unchanged when the key was present and one more when it was absent. |
| `Cart.Remove` | src/context/CartContext.tsx:114-119 | The result holds exactly the lines of the input that do not have the key. It is never longer. |
| `Cart.Update` | src/context/CartContext.tsx:97-111 | For n ≤ 0 no line of the key remains. For n > 0 the length is kept, and the key is present afterwards exactly when it was before. |
| `Cart.LoadCart` | src/context/CartContext.tsx:41-50 | A stored list loads as itself. An absent or unparsable stored cart loads as the empty list. |
| `Cart.TotalTickets` | src/pages/CartPage.tsx:17-20 | The left-fold sum of quantities, also used at src/components/Navbar.tsx:9. When every quantity is positive it is at least the number of lines. |
| `Cart.AddExisting` | src/context/CartContext.tsx:66-81 | With unique keys, adding a present key raises only that line's quantity by 1. Every other line and the order are unchanged. |
| `Cart.AddNew` | src/context/CartContext.tsx:84-93 | Adding an absent key appends exactly one line at the end. It has quantity 1, the category's price and the label "home vs away". |
| `Cart.RemoveAbsent` | src/context/CartContext.tsx:114-119 | Removing a key that has no line leaves the cart unchanged. |
| `Cart.RemoveAt` | src/context/CartContext.tsx:114-119 | With unique keys, removal deletes exactly the matching line and keeps the others in order. |
| `Cart.RemoveIdempotent` | src/context/CartContext.tsx:114-119 | A second removal of the same key is a no-op. |
| `Cart.UpdateNonPositiveRemoves` | src/context/CartContext.tsx:100-103 | An update with n ≤ 0 gives exactly the result of removing that key. |
| `Cart.MinusOnSingleTicketRemovesLine` | src/pages/CartPage.tsx:126-133 | The "−" button on a line holding one ticket removes that line and nothing else. |
| `Cart.UpdatePositiveAt` | src/context/CartContext.tsx:106-110 | With unique keys, a positive update sets only the matching line's quantity to n. There is no upper bound. |
| `Cart.UpdateAbsent` | src/context/CartContext.tsx:97-111 | An update of a key that has no line leaves the cart unchanged, whatever the value. |
| `Cart.AddPreservesInvariants` | src/context/CartContext.tsx:68-93 | Add keeps keys unique, and keeps every quantity at least 1. |
| `Cart.RemovePreservesInvariants` | src/context/CartContext.tsx:114-119 | Remove keeps keys unique, and keeps every quantity at least 1. |
| `Cart.UpdatePreservesInvariants` | src/context/CartContext.tsx:100-110 | Update keeps keys unique, and keeps every quantity at least 1, for any value. |
| `Cart.TotalAfterAdd` | src/context/CartContext.tsx:66-94 | With unique keys, every add raises the ticket count by exactly 1. |
| `Cart.TotalAfterRemove` | src/context/CartContext.tsx:114-119 | With unique keys, removing a line lowers the ticket count by that line's quantity. |
| `Cart.CartProvider.constructor` | src/context/CartContext.tsx:41-59 | Mounting loads the stored cart, falling back to empty. An absent or unparsable store gives the empty, well-formed cart, and a well-formed stored list stays well-formed. The first save then writes it back, or leaves storage untouched when the write fails. |
| `Cart.CartProvider.Save` | src/context/CartContext.tsx:52-59 | The save effect stores the current cart, or leaves storage as it was when the write fails. Only `storage` changes. |
| `Cart.CartProvider.AddToCart` | src/context/CartContext.tsx:61-95 | The new cart is `Add` of the old one and is saved. Unique keys and positive quantities are preserved. With unique keys the ticket count rises by 1. |
| `Cart.CartProvider.UpdateItemQuantity` | src/context/CartContext.tsx:97-112 | The new cart is `Update` of the old one and is saved. Unique keys and positive quantities are preserved. |
| `Cart.CartProvider.RemoveFromCart` | src/context/CartContext.tsx:114-120 | The new cart is `Remove` of the old one and is saved. Unique keys and positive quantities are preserved. |
| `Session.AuthProvider.constructor` | src/context/AuthContext.tsx:27-28 | The provider starts with no user, `isLoading` true, and whatever token storage holds. |
| `Session.AuthProvider.IsAuthenticated` | src/context/AuthContext.tsx:30 | Authenticated exactly when the user is non-null. |
| `Session.AuthProvider.Rendered` | src/context/AuthContext.tsx:65-67 | The provider renders the loading message instead of its children exactly while `isLoading` holds. |
| `Session.AuthProvider.GuardDecision` | src/components/ProtectedRoute.tsx:6-20 | The guard, fed from the session, renders children exactly when not loading and a user is set. It redirects exactly when not loading and no user is set. |
| `Session.AuthProvider.Login` | src/context/AuthContext.tsx:32-38 | Success stores the returned token and sets the returned user. A rejected sign-in propagates its error with user and token unchanged. A token write that throws rejects the call with user and token unchanged. Loading is untouched. |
| `Session.AuthProvider.Register` | src/context/AuthContext.tsx:40-45 | The same three paths as login, over the sign-up call. |
| `Session.AuthProvider.Logout` | src/context/AuthContext.tsx:47-50 | Removes the token and clears the user, and touches nothing else. A second call changes nothing. |
| `Session.AuthProvider.Rehydrate` | src/context/AuthContext.tsx:52-63 | A token read that throws makes the effect throw with nothing changed and `isLoading` still true. Otherwise `isLoading` ends false. Without a token there is no remote call and nothing else changes. A successful who-am-I sets the user. A failed one logs out, removing the token and the user. |
| `Session.Startup` | src/context/AuthContext.tsx:27-63 | When the token read succeeds, loading is over and the children render. When it throws, the effect throws with the session still loading, unauthenticated and holding the stored token. The session is authenticated exactly when the read succeeded, a token was stored and who-am-I succeeded. |
| `Session.GuardUnderProviderNeverWaits` | src/context/AuthContext.tsx:65-67 | Under the provider the guard's loading branch never shows, because children render only once loading is over. |
| `Session.LogoutKeepsCart` | src/context/AuthContext.tsx:47-50 | Logout leaves the cart untouched, both in memory and in storage. |
| `Guard.Decide` | src/components/ProtectedRoute.tsx:10-20 | Loading is decided first, exactly when `isLoading` holds. Redirect to `/login` carrying `from` = pathname happens exactly when not loading and not authenticated. Children render exactly when not loading and authenticated. Exactly one of the three holds. |
| `Guard.ReturnPath` | src/pages/Authentification.tsx:13 | The login page returns to the carried `from` path when it is non-empty, and to `/` when none or an empty one is carried. The result is never empty. |
| `Guard.RedirectThenLoginReturns` | src/pages/Authentification.tsx:29-31 | A redirect from a guarded page followed by a successful login navigates back to that page. |
| `Translations.TeamNameTranslations` | src/utils/translations.ts:3-69 | The table as a lookup with one case per key of the object literal, `None` for any other name. Every value is a non-empty string. |
| `Translations.TranslateTeamName` | src/utils/translations.ts:72-76 | A key in the table gives its value, and any other name is returned unchanged. A non-empty name never translates to the empty string. |
| `Translations.KnownNameIsTranslated` | src/utils/translations.ts:6-50 | "Germany" gives "Allemagne" (line 6), and "Ivory Coast" gives "Côte d'Ivoire" (line 50). |
| `Translations.UnknownNameIsUnchanged` | src/utils/translations.ts:72-76 | Every name outside the table comes back as given. |
| `Translations.LookupIsCaseSensitive` | src/utils/translations.ts:75 | "germany" is not the key "Germany" and comes back unchanged. |
| `Translations.SelfMappedNames` | src/utils/translations.ts:5-58 | "France" gives "France" (line 5), and "Iran" gives "Iran" (line 58). |

## Left out

- Local storage and JSON are foreign library calls. The stored cart is an abstract value
  (`Absent`, `Corrupt` or `Serialized(items)`). Whether a write succeeds is a `saveOk`
  parameter, because `setItem` may throw and the error is only logged. The session's token
  write in login and register and its token read at start-up are not guarded in the source.
  Whether they succeed is the `writeOk` and `readOk` parameter, and a throw is modelled as
  the call stopping where the source stops. A parsed value that
  is not a list of cart items (for example the text `null`) is not modelled.
- The HTTP client and the remote calls `loginUser`, `registerUser` and `getMe` are network
  I/O. Their outcomes are parameters. The mismatch between the declared response type and
  the destructuring in login is not modelled.
- Log output (`console.log`, `console.error`) is not modelled.
- Async ordering of the rehydration promise and the login page's `setTimeout` are not
  modelled. Each remote call is one atomic step, and no races or overlapping calls are
  modelled.
- Only the integer ticket count is modelled. The price total and the
  +5 service fee are floating-point sums with rounding for display. Prices are copied as
  `real` and never summed.
- Quantities are integers. The update reducer accepts any JavaScript number, but the UI
  only passes the current quantity plus or minus one.
- Translations.TeamNameTranslations: the dictionary is modelled as a lookup function on
  exact keys, not as a Dafny `map` value. Keys inherited through the JavaScript prototype chain (such as `toString`)
  are not modelled.
- The context's default no-op values and the `useCart`/`useAuth` hooks are not modelled.
  They are framework glue, and the hook's error when used outside the provider is not part
  of the state logic.
- Page and component rendering and routing are not modelled, apart from the guard's
  decision and the login page's return path.
- The reducers enforce no per-match ticket limit and no stock ceiling, and a line keeps no
  copy of the seat count. The only stock gating is the add button, shown when
  `availableSeats > 0` (src/pages/MatchDetailPage.tsx:553), and it is not modelled.
- Session.Startup: when the token read throws, the error escapes the effect to React. With
  no error boundary around the provider (src/main.tsx:8-14), React unmounts the whole tree.
  What is then on screen is not modelled. The model states only the session's state at
  that point.
- Session.AuthProvider.Logout: the `removeItem` call is assumed to succeed. If it threw,
  the user would stay set, and during rehydration the rejection would escape the `catch`
  while `finally` still ends loading.
