/** The navigation bar: the login state it shows, kept in step with `localStorage` through
    the "authChanged" and "storage" events, the logout button, the dark-mode preference and
    the mobile menu. */
module Navbar {
  import opened Wrappers
  import opened Session
  import Json
  import Browser

  class Navbar {
    const window: Browser.Window
    var isLoggedIn: bool
    var isDarkMode: bool
    var userName: string
    var isMobileMenuOpen: bool
    /** The `handleAuthChanged` closure registered for "authChanged". */
    var authListener: Browser.Listener
    /** The `handleStorageChange` closure registered for "storage". */
    var storageListener: Browser.Listener
    var mounted: bool

    /** Both closures are registered exactly while the component is mounted. */
    ghost predicate Valid()
      reads this, window
    {
      && window.Valid()
      && authListener.event == "authChanged" && storageListener.event == "storage"
      && (authListener in window.listeners <==> mounted)
      && (storageListener in window.listeners <==> mounted)
    }

    /** Mounting: the state initialisers, then the three effects in order (`checkAuth`, the
        two listeners, the dark-mode write). */
    constructor Mount(w: Browser.Window)
      requires w.Valid()
      requires InitialDarkMode(GetItem(w.localStorage, "darkMode")).Some?
      modifies w
      ensures Valid() && mounted && window == w
      ensures isDarkMode == InitialDarkMode(GetItem(old(w.localStorage), "darkMode")).value
      ensures AuthView(isLoggedIn, userName) == DeriveAuth(w.localStorage)
      ensures !isMobileMenuOpen
      ensures w.localStorage == old(w.localStorage)["darkMode" := ShowBool(isDarkMode)]
      ensures w.listeners == old(w.listeners) + {authListener, storageListener}
      ensures authListener !in old(w.listeners) && storageListener !in old(w.listeners)
    {
      window := w;
      isLoggedIn := false;
      isDarkMode := InitialDarkMode(GetItem(w.localStorage, "darkMode")).value;
      userName := "";
      isMobileMenuOpen := false;
      authListener := Browser.Listener("authChanged", 0);
      storageListener := Browser.Listener("storage", 0);
      mounted := false;
      new;
      CheckAuth();
      var onAuth := w.NewHandler("authChanged");
      var onStorage := w.NewHandler("storage");
      w.AddEventListener(onAuth);
      w.AddEventListener(onStorage);
      authListener, storageListener, mounted := onAuth, onStorage, true;
      ghost var before := w.localStorage;
      w.SetItem("darkMode", ShowBool(isDarkMode));
      DeriveAuthFrame(before, w.localStorage);
    }

    /** `checkAuth`: reads the stored user and token and sets the shown state. */
    method CheckAuth()
      modifies this`isLoggedIn, this`userName
      ensures AuthView(isLoggedIn, userName) == DeriveAuth(window.localStorage)
    {
      var raw := GetItem(window.localStorage, "user");
      var parsed := Json.Decode(if Truthy(raw) then raw.value else "null");
      if parsed.None? {
        // the catch block
        isLoggedIn := false;
        userName := "";
        return;
      }
      var user := parsed.value;
      var token := GetItem(window.localStorage, "token");
      var name := Json.Member(user, "name");
      if user.JObject? && Truthy(name) && Truthy(token) {
        isLoggedIn := true;
        userName := name.value;
      } else {
        isLoggedIn := false;
        userName := "";
      }
    }

    /** `handleAuthChanged`. */
    method HandleAuthChanged()
      modifies this`isLoggedIn, this`userName
      ensures AuthView(isLoggedIn, userName) == DeriveAuth(window.localStorage)
    {
      CheckAuth();
    }

    /** `handleStorageChange(e)`: re-reads only for the two session keys; a `null` key (another
        tab cleared the storage) and every other key leave the shown state as it was. */
    method HandleStorageChange(key: Option<string>)
      modifies this`isLoggedIn, this`userName
      ensures key == Some("user") || key == Some("token") ==>
                AuthView(isLoggedIn, userName) == DeriveAuth(window.localStorage)
      ensures !(key == Some("user") || key == Some("token")) ==>
                isLoggedIn == old(isLoggedIn) && userName == old(userName)
    {
      if key == Some("user") || key == Some("token") {
        CheckAuth();
      }
    }

    /** `toggleDarkMode`, followed by the effect that saves the new value. */
    method ToggleDarkMode()
      modifies this`isDarkMode, window`localStorage
      ensures isDarkMode == !old(isDarkMode)
      ensures window.localStorage == old(window.localStorage)["darkMode" := ShowBool(isDarkMode)]
      ensures InitialDarkMode(GetItem(window.localStorage, "darkMode")) == Some(isDarkMode)
    {
      isDarkMode := !isDarkMode;
      window.SetItem("darkMode", ShowBool(isDarkMode));
    }

    method ToggleMobileMenu()
      modifies this`isMobileMenuOpen
      ensures isMobileMenuOpen == !old(isMobileMenuOpen)
    {
      isMobileMenuOpen := !isMobileMenuOpen;
    }

    /** The menu links that close the mobile menu. */
    method CloseMobileMenu()
      modifies this`isMobileMenuOpen
      ensures !isMobileMenuOpen
    {
      isMobileMenuOpen := false;
    }

    /** `handleLogout`: removes both session keys, resets the shown state, closes the menu and
        dispatches "authChanged", which reaches this component's own handler. */
    method HandleLogout()
      requires Valid()
      modifies this`isLoggedIn, this`userName, this`isMobileMenuOpen, window`localStorage
      ensures Valid()
      ensures window.localStorage == old(window.localStorage) - {"user", "token"}
      ensures !isLoggedIn && userName == "" && !isMobileMenuOpen
      ensures DeriveAuth(window.localStorage) == LoggedOut
    {
      window.RemoveItem("user");
      window.RemoveItem("token");
      isLoggedIn := false;
      userName := "";
      isMobileMenuOpen := false;
      if authListener in window.listeners {
        HandleAuthChanged();
      }
      LogoutThenDeriveAuth(old(window.localStorage));
    }

    /** The effect cleanup on unmount: removes the two listeners it added. */
    method Unmount()
      requires Valid() && mounted
      modifies window`listeners, this`mounted
      ensures Valid() && !mounted
      ensures window.listeners == old(window.listeners) - {authListener, storageListener}
    {
      window.RemoveEventListener(authListener);
      window.RemoveEventListener(storageListener);
      mounted := false;
    }
  }

  /** Mounting and then unmounting the bar leaves the window's listeners as they were. */
  method MountThenUnmount(w: Browser.Window) returns (nav: Navbar)
    requires w.Valid()
    requires InitialDarkMode(GetItem(w.localStorage, "darkMode")).Some?
    modifies w
    ensures w.listeners == old(w.listeners)
  {
    nav := new Navbar.Mount(w);
    nav.Unmount();
  }

  /** `checkAuth` is idempotent: a second run on the same storage shows the same state. */
  method CheckAuthTwice(nav: Navbar) returns (first: AuthView, second: AuthView)
    modifies nav`isLoggedIn, nav`userName
    ensures first == second == DeriveAuth(nav.window.localStorage)
    ensures AuthView(nav.isLoggedIn, nav.userName) == second
  {
    nav.CheckAuth();
    first := AuthView(nav.isLoggedIn, nav.userName);
    nav.CheckAuth();
    second := AuthView(nav.isLoggedIn, nav.userName);
  }

  /** `dispatchEvent(new Event("authChanged"))` in the same tab: the bar is the event's only
      subscriber, and its handler runs when its listener is registered. */
  method DispatchAuthChanged(nav: Navbar)
    requires nav.Valid()
    modifies nav`isLoggedIn, nav`userName
    ensures nav.mounted ==> AuthView(nav.isLoggedIn, nav.userName) == DeriveAuth(nav.window.localStorage)
    ensures !nav.mounted ==> nav.isLoggedIn == old(nav.isLoggedIn) && nav.userName == old(nav.userName)
  {
    if nav.authListener in nav.window.listeners {
      nav.HandleAuthChanged();
    }
  }
}
