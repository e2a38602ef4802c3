/**
 * Token storage (lib/auth.ts): one key of the browser's local storage, guarded
 * by "is there a window at all" (there is none while rendering on the server).
 * Local storage is the `storage` map; the presence of `window` is `hasWindow`.
 */
module Auth {
  import opened Options

  const TokenKey := "auth_token"
  const AuthorizationHeader := "Authorization"
  const BearerPrefix := "Bearer "

  class TokenStore {
    const hasWindow: bool
    var storage: map<string, string>

    constructor (hasWindow: bool, storage: map<string, string>)
      ensures this.hasWindow == hasWindow && this.storage == storage
    {
      this.hasWindow := hasWindow;
      this.storage := storage;
    }

    /** `getToken()`: the stored token, or null with no window or no entry. */
    function GetToken(): (t: Option<string>)
      reads this
      ensures t.Some? <==> hasWindow && TokenKey in storage
      ensures t.Some? ==> t.value == storage[TokenKey]
    {
      if hasWindow && TokenKey in storage then Some(storage[TokenKey]) else None
    }

    /** `setToken(token)` */
    method SetToken(token: string)
      modifies this
      ensures hasWindow ==> storage == old(storage)[TokenKey := token]
      ensures !hasWindow ==> storage == old(storage)
      ensures hasWindow ==> GetToken() == Some(token)
      ensures forall k :: k != TokenKey ==> (k in storage <==> k in old(storage))
      ensures forall k :: k != TokenKey && k in storage ==> storage[k] == old(storage)[k]
    {
      if !hasWindow {
        return;
      }
      storage := storage[TokenKey := token];
    }

    /** `removeToken()` */
    method RemoveToken()
      modifies this
      ensures storage == if hasWindow then old(storage) - {TokenKey} else old(storage)
      ensures GetToken() == None
      ensures forall k :: k != TokenKey ==> (k in storage <==> k in old(storage))
      ensures forall k :: k != TokenKey && k in storage ==> storage[k] == old(storage)[k]
    {
      if !hasWindow {
        return;
      }
      storage := storage - {TokenKey};
    }

    /** `isAuthenticated()`: some token is stored, the empty string included. */
    function IsAuthenticated(): (b: bool)
      reads this
      ensures b <==> hasWindow && TokenKey in storage
    {
      GetToken() != None
    }

    /** `getAuthHeaders()`: a bearer header for a truthy (non-empty) token, no header otherwise. */
    function AuthHeaders(): (h: map<string, string>)
      reads this
      ensures h.Keys <= {AuthorizationHeader}
      ensures AuthorizationHeader in h <==> hasWindow && TokenKey in storage && storage[TokenKey] != ""
      ensures AuthorizationHeader in h ==> h[AuthorizationHeader] == BearerPrefix + storage[TokenKey]
    {
      var token := GetToken();
      if token.Some? && token.value != "" then map[AuthorizationHeader := BearerPrefix + token.value] else map[]
    }
  }

  /** A header is only ever sent for an authenticated store, and it carries the stored token after the prefix. */
  lemma HeaderImpliesAuthenticated(store: TokenStore)
    requires AuthorizationHeader in store.AuthHeaders()
    ensures store.IsAuthenticated()
    ensures store.AuthHeaders()[AuthorizationHeader][|BearerPrefix|..] == store.GetToken().value
  {
  }

  /** The converse fails: an empty stored token counts as authenticated yet yields no header. */
  lemma EmptyTokenAuthenticatedWithoutHeader(store: TokenStore)
    requires store.hasWindow && TokenKey in store.storage && store.storage[TokenKey] == ""
    ensures store.IsAuthenticated() && store.AuthHeaders() == map[]
  {
  }
}
