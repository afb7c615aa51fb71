/**
 * The session helpers of the API module and its two interceptors, over the
 * browser's local storage. `hasWindow` says whether a browser is present
 * (`typeof window !== 'undefined'`). The stored user record is the opaque JSON
 * text the caller hands over; the HTTP wrappers themselves are not modelled.
 */
module Api {
  import opened Wrappers
  import opened Storage

  const TokenKey: string := "token"
  const UserKey: string := "user"
  const DefaultErrorMessage: string := "An unexpected error occurred"

  /** JavaScript truthiness of what `getItem` returns: present and not empty */
  predicate Truthy(v: Option<string>) {
    v.Some? && v.value != ""
  }

  /** `isAuthenticated`: a browser, and a non-empty token stored */
  function IsAuthenticated(hasWindow: bool, items: map<string, string>): (b: bool)
    ensures b <==> hasWindow && TokenKey in items && items[TokenKey] != ""
  {
    if !hasWindow then false
    else Truthy(if TokenKey in items then Some(items[TokenKey]) else None)
  }

  /** `getCurrentUser`: the stored user text when there is a non-empty one */
  function GetCurrentUser(hasWindow: bool, items: map<string, string>): (u: Option<string>)
    ensures u.Some? <==> hasWindow && UserKey in items && items[UserKey] != ""
    ensures u.Some? ==> u.value == items[UserKey]
  {
    if !hasWindow then None
    else
      var userStr := if UserKey in items then Some(items[UserKey]) else None;
      if Truthy(userStr) then userStr else None
  }

  /** `setAuth`: store the token and the user; without a browser, do nothing */
  method SetAuth(store: LocalStorage, hasWindow: bool, token: string, userJson: string)
    modifies store
    ensures store.items == if hasWindow then old(store.items)[TokenKey := token][UserKey := userJson]
                           else old(store.items)
  {
    if !hasWindow {
      return;
    }
    store.SetItem(TokenKey, token);
    store.SetItem(UserKey, userJson);
  }

  /** `clearAuth`: forget the token and the user; without a browser, do nothing */
  method ClearAuth(store: LocalStorage, hasWindow: bool)
    modifies store
    ensures store.items == if hasWindow then old(store.items) - {TokenKey, UserKey} else old(store.items)
  {
    if !hasWindow {
      return;
    }
    store.RemoveItem(TokenKey);
    store.RemoveItem(UserKey);
  }

  /** After `setAuth` with a non-empty token the session is authenticated and has that user */
  lemma SetAuthLogsIn(items: map<string, string>, token: string, userJson: string)
    requires token != ""
    ensures IsAuthenticated(true, items[TokenKey := token][UserKey := userJson])
    ensures userJson != "" ==> GetCurrentUser(true, items[TokenKey := token][UserKey := userJson]) == Some(userJson)
  {
  }

  /** `setAuth` touches the token and the user and no other key */
  lemma SetAuthFrame(items: map<string, string>, token: string, userJson: string)
    ensures var after := items[TokenKey := token][UserKey := userJson];
            after.Keys == items.Keys + {TokenKey, UserKey} &&
            forall k :: k in items && k != TokenKey && k != UserKey ==> after[k] == items[k]
  {
  }

  /** After `clearAuth` there is neither a session nor a user */
  lemma ClearAuthLogsOut(items: map<string, string>)
    ensures !IsAuthenticated(true, items - {TokenKey, UserKey})
    ensures GetCurrentUser(true, items - {TokenKey, UserKey}) == None
    ensures forall k :: k in items && k != TokenKey && k != UserKey ==> k in items - {TokenKey, UserKey}
  {
  }

  /** The part of an axios error the module looks at */
  datatype ResponseData = ResponseData(error: Option<string>)
  datatype Response = Response(status: int, data: Option<ResponseData>)
  datatype ApiError = ApiError(response: Option<Response>, message: Option<string>)

  /** The server's `error` field when it is non-empty */
  function ServerMessage(err: ApiError): Option<string> {
    if err.response.Some? && err.response.value.data.Some? && Truthy(err.response.value.data.value.error)
    then err.response.value.data.value.error
    else None
  }

  /** `handleError`: the server's message, else the error's own, else a fixed text */
  function HandleError(err: ApiError): (msg: string)
    ensures msg != ""
    ensures ServerMessage(err).Some? ==> msg == ServerMessage(err).value
    ensures ServerMessage(err).None? && Truthy(err.message) ==> msg == err.message.value
    ensures ServerMessage(err).None? && !Truthy(err.message) ==> msg == DefaultErrorMessage
  {
    if ServerMessage(err).Some? then ServerMessage(err).value
    else if Truthy(err.message) then err.message.value
    else DefaultErrorMessage
  }

  /** The headers of an outgoing request, which the request interceptor edits in place */
  class RequestConfig {
    var headers: map<string, string>

    constructor (headers: map<string, string>)
      ensures this.headers == headers
    {
      this.headers := headers;
    }
  }

  /** The request interceptor: send the stored token, if any, as a bearer token */
  method AuthorizeRequest(config: RequestConfig, store: LocalStorage) returns (sent: RequestConfig)
    modifies config
    ensures sent == config
    ensures Truthy(store.GetItem(TokenKey)) ==>
              config.headers == old(config.headers)["Authorization" := "Bearer " + store.items[TokenKey]]
    ensures !Truthy(store.GetItem(TokenKey)) ==> config.headers == old(config.headers)
  {
    var token := store.GetItem(TokenKey);
    if Truthy(token) {
      config.headers := config.headers["Authorization" := "Bearer " + token.value];
    }
    sent := config;
  }

  /**
   * The response interceptor's error path: a 401 drops the session (and the
   * page is sent to the login screen, not modelled); the error is rejected
   * again in every case.
   */
  method OnResponseError(store: LocalStorage, err: ApiError) returns (rejected: ApiError)
    modifies store
    ensures rejected == err
    ensures err.response.Some? && err.response.value.status == 401 ==>
              store.items == old(store.items) - {TokenKey, UserKey}
    ensures !(err.response.Some? && err.response.value.status == 401) ==>
              store.items == old(store.items)
  {
    if err.response.Some? && err.response.value.status == 401 {
      store.RemoveItem(TokenKey);
      store.RemoveItem(UserKey);
    }
    rejected := err;
  }
}
