/**
 * The works site's root component: it shows the password gate until the
 * visitor is authenticated and the router afterwards, and remembers the
 * answer in the browser's per-tab session storage so that a reload of the
 * page within the same session skips the gate.
 */
module WorksApp {
  import opened Wrappers

  /** The session-storage key under which the gate's answer is kept. */
  const AuthKey: string := "portfolio_authenticated"

  /** Whether the stored items record an authenticated visitor: the key holds exactly `"true"`. */
  predicate StoredAuth(items: map<string, string>) {
    AuthKey in items && items[AuthKey] == "true"
  }

  /** The items after recording `status`: the key set to `"true"`, or removed. */
  function StoreAuth(items: map<string, string>, status: bool): map<string, string> {
    if status then items[AuthKey := "true"] else items - {AuthKey}
  }

  /**
   * Recording a status and reading it back gives that status, and every
   * other key keeps its value; recording the same status twice is the same
   * as recording it once.
   */
  lemma StoreAuthRoundTrip(items: map<string, string>, status: bool)
    ensures StoredAuth(StoreAuth(items, status)) == status
    ensures forall k :: k != AuthKey ==>
      (k in StoreAuth(items, status) <==> k in items) &&
      (k in items ==> StoreAuth(items, status)[k] == items[k])
    ensures StoreAuth(StoreAuth(items, status), status) == StoreAuth(items, status)
  {
  }

  /** What the root component renders. */
  datatype View = PasswordGate | Router

  function Render(isAuthenticated: bool): (v: View)
    ensures v == Router <==> isAuthenticated
  {
    if isAuthenticated then Router else PasswordGate
  }

  /** The browser's session storage, as the string items it holds. */
  class SessionStorage {
    var items: map<string, string>

    constructor (items: map<string, string>)
      ensures this.items == items
    {
      this.items := items;
    }

    /** `getItem`: the value under `key`, or `None` (`null`) when there is none. */
    method GetItem(key: string) returns (value: Option<string>)
      ensures value.Some? <==> key in items
      ensures value.Some? ==> value.value == items[key]
    {
      value := if key in items then Some(items[key]) else None;
    }

    method SetItem(key: string, value: string)
      modifies this
      ensures items == old(items)[key := value]
    {
      items := items[key := value];
    }

    method RemoveItem(key: string)
      modifies this
      ensures items == old(items) - {key}
    {
      items := items - {key};
    }
  }

  /** The root `App` component: its `isAuthenticated` state over a session storage. */
  class App {
    const storage: SessionStorage
    var isAuthenticated: bool

    /** A freshly rendered component: not authenticated, whatever the storage says. */
    constructor (storage: SessionStorage)
      ensures this.storage == storage && !isAuthenticated
    {
      this.storage := storage;
      isAuthenticated := false;
    }

    function View(): View
      reads this
    {
      Render(isAuthenticated)
    }

    /**
     * The mount effect: a stored `"true"` authenticates; anything else, or
     * no entry, leaves the state as it is.
     */
    method Mount()
      modifies this
      ensures isAuthenticated == (old(isAuthenticated) || StoredAuth(storage.items))
      ensures storage.items == old(storage.items)
    {
      var authStatus := storage.GetItem(AuthKey);
      if authStatus == Some("true") {
        isAuthenticated := true;
      }
    }

    /** `handleAuthenticate`: take the gate's answer and record it in the storage. */
    method HandleAuthenticate(status: bool)
      modifies this, storage
      ensures isAuthenticated == status
      ensures storage.items == StoreAuth(old(storage.items), status)
    {
      isAuthenticated := status;
      if status {
        storage.SetItem(AuthKey, "true");
      } else {
        storage.RemoveItem(AuthKey);
      }
    }
  }

  /**
   * A reload within the same session: a new component over the same storage
   * shows the router exactly when the previous one was last authenticated.
   */
  method ReloadRemembers(storage: SessionStorage, status: bool) returns (reloaded: App)
    modifies storage
    ensures reloaded.storage == storage
    ensures reloaded.isAuthenticated == status
    ensures reloaded.View() == (if status then Router else PasswordGate)
  {
    var first := new App(storage);
    first.Mount();
    first.HandleAuthenticate(status);
    StoreAuthRoundTrip(old(storage.items), status);
    reloaded := new App(storage);
    reloaded.Mount();
  }
}
