/**
 * The client's `AuthService.login`, with the HTTP exchange removed: what is
 * left is the update of the browser's local storage once the server's
 * response has arrived.
 */
module Services {
  import opened Wrappers

  /** The fixed local-storage key under which the session token is kept. */
  const TokenKey: string := "token"

  /** The server's answer to `POST account/login`. */
  datatype AuthResponse = AuthResponse(isSuccess: bool, message: string, token: string)

  /** The browser's `localStorage`: a string-to-string store. */
  class LocalStorage {
    var items: map<string, string>

    constructor ()
      ensures items == map[]
    {
      items := map[];
    }

    /** `localStorage.getItem(key)`; `null` for a missing key. */
    function GetItem(key: string): Option<string>
      reads this
    {
      if key in items then Some(items[key]) else None
    }

    /** `localStorage.setItem(key, value)` */
    method SetItem(key: string, value: string)
      modifies this
      ensures items == old(items)[key := value]
    {
      items := items[key := value];
    }
  }

  /** The store as `login` leaves it, given the store before and the response. */
  function StoreAfterLogin(items: map<string, string>, response: AuthResponse): (r: map<string, string>)
    ensures response.isSuccess ==> TokenKey in r && r[TokenKey] == response.token
    ensures !response.isSuccess ==> r == items
    ensures r.Keys == if response.isSuccess then items.Keys + {TokenKey} else items.Keys
    ensures forall k :: k in items && k != TokenKey ==> k in r && r[k] == items[k]
  {
    if response.isSuccess then items[TokenKey := response.token] else items
  }

  class AuthService {
    /** The storage the service writes; in the browser, the global `localStorage`. */
    const storage: LocalStorage
    const tokenKey: string := TokenKey

    constructor (storage: LocalStorage)
      ensures this.storage == storage
    {
      this.storage := storage;
    }

    /**
     * The `map` step of `login`: stores the token under `tokenKey` only on a
     * successful response, then hands the response back unchanged.
     */
    method Login(response: AuthResponse) returns (r: AuthResponse)
      modifies storage
      ensures r == response
      ensures storage.items == StoreAfterLogin(old(storage.items), response)
    {
      if response.isSuccess {
        storage.SetItem(tokenKey, response.token);
      }
      return response;
    }
  }

  /**
   * A caller that logs in and then reads the token key back through
   * `getItem` sees the new token after a successful response, and the
   * earlier slot contents after a failed one.
   */
  method SuccessfulLoginIsReadBack(service: AuthService, response: AuthResponse) returns (read: Option<string>)
    modifies service.storage
    ensures response.isSuccess ==> read == Some(response.token)
    ensures !response.isSuccess ==> read == old(service.storage.GetItem(TokenKey))
  {
    var r := service.Login(response);
    read := service.storage.GetItem(TokenKey);
  }

  /** The token slot is last-write-wins: a later successful login erases the trace of an earlier one. */
  lemma LastWriteWins(items: map<string, string>, first: AuthResponse, second: AuthResponse)
    requires second.isSuccess
    ensures StoreAfterLogin(StoreAfterLogin(items, first), second) == StoreAfterLogin(items, second)
  {
  }

  /** A failed login after any sequence of logins keeps whatever token the earlier ones left. */
  lemma FailedLoginKeepsSession(items: map<string, string>, first: AuthResponse, second: AuthResponse)
    requires !second.isSuccess
    ensures StoreAfterLogin(StoreAfterLogin(items, first), second) == StoreAfterLogin(items, first)
  {
  }
}
