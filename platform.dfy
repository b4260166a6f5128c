/** The browser facilities the pages touch: `sessionStorage` and the router. */
module Platform {
  import opened Wrappers

  const IsLoggedInKey := "isLoggedIn"
  const UserNameKey := "userName"
  const DashboardRoute := "/app/dashboard"
  const LoginRoute := "/app/login"

  /** `sessionStorage` as a map from keys to values, and every `router.push` as an
      entry of `pushed`, most recent last. */
  class Browser {
    var session: map<string, string>
    var pushed: seq<string>

    constructor (initial: map<string, string>)
      ensures session == initial && pushed == []
    {
      session, pushed := initial, [];
    }

    /** `sessionStorage.getItem(key)`, with `null` as `None`. */
    function GetItem(key: string): (r: Option<string>)
      reads this
      ensures r.Some? <==> key in session
      ensures r.Some? ==> r.value == session[key]
    {
      if key in session then Some(session[key]) else None
    }

    /** The route pushed last, if any. */
    function LastRoute(): Option<string>
      reads this
    {
      if pushed == [] then None else Some(pushed[|pushed| - 1])
    }

    /** `sessionStorage.setItem(key, value)`. */
    method SetItem(key: string, value: string)
      modifies this
      ensures session == old(session)[key := value] && pushed == old(pushed)
    {
      session := session[key := value];
    }

    /** `sessionStorage.removeItem(key)`. */
    method RemoveItem(key: string)
      modifies this
      ensures session == old(session) - {key} && pushed == old(pushed)
    {
      session := session - {key};
    }

    /** `router.push(route)`. */
    method Push(route: string)
      modifies this
      ensures pushed == old(pushed) + [route] && session == old(session)
    {
      pushed := pushed + [route];
    }
  }
}
