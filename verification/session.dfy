/**
 * The browser state the client touches: `localStorage` (a string-to-string map)
 * and the current location. `IsAuthenticated` is the presence check of
 * hooks/useAuth.ts.
 */
module Session {

  const TokenKey := "access_token"
  const LoginPath := "/login"
  const TasksPath := "/tasks"

  class BrowserState {
    var storage: map<string, string>
    var location: string

    constructor (storage: map<string, string>, location: string)
      ensures this.storage == storage && this.location == location
    {
      this.storage := storage;
      this.location := location;
    }

    /** `Boolean(localStorage.getItem('access_token'))`. */
    predicate IsAuthenticated()
      reads this
    {
      TokenKey in storage && storage[TokenKey] != ""
    }

    method RemoveToken()
      modifies this`storage
      ensures storage == old(storage) - {TokenKey}
      ensures !IsAuthenticated()
    {
      storage := storage - {TokenKey};
    }

    method StoreToken(token: string)
      modifies this`storage
      ensures storage == old(storage)[TokenKey := token]
      ensures IsAuthenticated() <==> token != ""
    {
      storage := storage[TokenKey := token];
    }

    method Navigate(path: string)
      modifies this`location
      ensures location == path
    {
      location := path;
    }
  }
}
