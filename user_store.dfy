/** The browser-side user store (app/stores/user.ts). As in the link store,
    request outcomes are inputs and operations that set `loading` before
    awaiting are split at the await into `Begin` and `End` steps. */
module UserStoreClient {
  import opened Common
  import opened LinkStoreClient

  datatype AuthUser = AuthUser(id: nat, username: string, displayName: string, email: Option<string>, role: int)

  class UserStore {
    var user: Option<AuthUser>
    var loading: bool

    constructor ()
      ensures user == None && !loading
    {
      user := None;
      loading := false;
    }

    /** `setUser`: replaces the user, possibly with none. */
    method SetUser(payload: Option<AuthUser>)
      modifies this`user
      ensures user == payload
    {
      user := payload;
    }

    /** `login` up to its await. */
    method BeginLogin()
      modifies this`loading
      ensures loading
    {
      loading := true;
    }

    /** `login` after its await: a successful response becomes the user, a
        failure keeps the old one; `loading` ends false either way. */
    method EndLogin(response: Result<AuthUser, FetchError>) returns (r: Result<AuthUser, FetchError>)
      modifies this`user, this`loading
      ensures r == response && !loading
      ensures response.Ok? ==> user == Some(response.value)
      ensures response.Err? ==> user == old(user)
    {
      if response.Ok? {
        SetUser(Some(response.value));
      }
      loading := false;
      r := response;
    }

    /** `fetchProfile` up to its await. */
    method BeginFetchProfile()
      modifies this`loading
      ensures loading
    {
      loading := true;
    }

    /** `fetchProfile` after its await: the response becomes the user, `null`
        (no session) included; a failure keeps the old one; `loading` ends false. */
    method EndFetchProfile(response: Result<Option<AuthUser>, FetchError>) returns (r: Result<Option<AuthUser>, FetchError>)
      modifies this`user, this`loading
      ensures r == response && !loading
      ensures response.Ok? ==> user == response.value
      ensures response.Err? ==> user == old(user)
    {
      if response.Ok? {
        SetUser(response.value);
      }
      loading := false;
      r := response;
    }

    /** `logout`: the user is cleared only once the request succeeds. */
    method Logout(response: Result<(), FetchError>) returns (r: Result<(), FetchError>)
      modifies this`user
      ensures r == response
      ensures response.Ok? ==> user == None
      ensures response.Err? ==> user == old(user)
    {
      if response.Err? {
        return response;
      }
      SetUser(None);
      r := response;
    }
  }
}
