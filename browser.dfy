/**
 * The browser state the front end reads and writes: the two storage areas,
 * the address bar, and where the page was sent with `location.href = ...`.
 */
module BrowserState {
  import opened Wrappers
  import opened Records

  class Browser {
    /** `sessionStorage`. */
    var session: Storage
    /** `localStorage`. */
    var local: Storage
    /** `window.location` (path and query). */
    var location: Url
    /** The last address assigned to `window.location.href`, if any. */
    var navigation: Option<string>

    constructor(session0: Storage, local0: Storage, location0: Url)
      ensures session == session0 && local == local0 && location == location0 && navigation == None
    {
      session := session0;
      local := local0;
      location := location0;
      navigation := None;
    }

    /** `sessionStorage.setItem(key, value)`. */
    method SetSession(key: string, value: Stored)
      modifies this
      ensures session == old(session)[key := value]
      ensures local == old(local) && location == old(location) && navigation == old(navigation)
    {
      session := session[key := value];
    }

    /** `sessionStorage.removeItem(key)`. */
    method RemoveSession(key: string)
      modifies this
      ensures session == old(session) - {key}
      ensures local == old(local) && location == old(location) && navigation == old(navigation)
    {
      session := session - {key};
    }
  }
}
