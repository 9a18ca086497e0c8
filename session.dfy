/** What the components derive from `localStorage`: the login state shown by the navigation
    bar, the user id that owns notes, the dashboard's user record and the dark-mode flag. */
module Session {
  import opened Wrappers
  import Json

  type Store = map<string, string>

  /** `localStorage.getItem(key)`; `None` is the `null` returned for a missing key. */
  function GetItem(store: Store, key: string): Option<string>
  {
    if key in store then Some(store[key]) else None
  }

  /** JavaScript truthiness of a string that may be absent: present and non-empty. */
  predicate Truthy(v: Option<string>)
  {
    v.Some? && v.value != ""
  }

  /** The text `setItem` stores for a value that may be `undefined`: `String(undefined)`. */
  function StoredText(v: Option<string>): string
  {
    match v
    case Some(s) => s
    case None => "undefined"
  }

  /** The text `setItem("user", JSON.stringify(user))` stores. */
  function StoredUser(user: Option<Json.Json>): string
  {
    match user
    case Some(j) => Json.Encode(j)
    case None => "undefined"
  }

  /** The session keys are set and cleared together. */
  predicate Paired(store: Store)
  {
    ("user" in store) == ("token" in store)
  }

  datatype AuthView = AuthView(isLoggedIn: bool, userName: string)

  const LoggedOut := AuthView(false, "")

  /** The state `checkAuth` assigns: the stored user (a missing or empty entry reads as
      "null") must parse to an object with a truthy `name`, and the token must be truthy. A
      parse error is caught and reads as logged out. */
  function DeriveAuth(store: Store): (v: AuthView)
    ensures v.isLoggedIn <==> v.userName != ""
    ensures v.isLoggedIn ==> Truthy(GetItem(store, "token")) && Truthy(GetItem(store, "user"))
    ensures v.isLoggedIn ==> Json.Decode(store["user"]).Some?
                             && Json.Member(Json.Decode(store["user"]).value, "name") == Some(v.userName)
    ensures Truthy(GetItem(store, "token")) && Truthy(GetItem(store, "user"))
            && Json.Decode(store["user"]).Some? && Truthy(Json.Member(Json.Decode(store["user"]).value, "name"))
            ==> v == AuthView(true, Json.Member(Json.Decode(store["user"]).value, "name").value)
  {
    var raw := GetItem(store, "user");
    match Json.Decode(if Truthy(raw) then raw.value else "null")
    case None => LoggedOut
    case Some(user) =>
      var name := Json.Member(user, "name");
      if user.JObject? && Truthy(name) && Truthy(GetItem(store, "token")) then AuthView(true, name.value)
      else LoggedOut
  }

  /** A missing, empty or malformed stored user reads as logged out, with no error escaping. */
  lemma DeriveAuthLoggedOut(store: Store)
    ensures !Truthy(GetItem(store, "user")) ==> DeriveAuth(store) == LoggedOut
    ensures "user" in store && Json.Decode(store["user"]).None? ==> DeriveAuth(store) == LoggedOut
    ensures !Truthy(GetItem(store, "token")) ==> DeriveAuth(store) == LoggedOut
  {
  }

  /** Only the "user" and "token" entries matter to the login state: a change to any other
      key cannot change it, which is why the storage handler may ignore other keys. */
  lemma DeriveAuthFrame(s1: Store, s2: Store)
    requires GetItem(s1, "user") == GetItem(s2, "user")
    requires GetItem(s1, "token") == GetItem(s2, "token")
    ensures DeriveAuth(s1) == DeriveAuth(s2)
  {
  }

  /** After the login write, the navigation bar shows the user as logged in exactly when the
      response's user is an object with a truthy name and the stored token is non-empty
      (a missing token is stored as "undefined", which is truthy). */
  lemma LoginThenDeriveAuth(store: Store, user: Option<Json.Json>, token: Option<string>)
    ensures var after := store["user" := StoredUser(user)]["token" := StoredText(token)];
            DeriveAuth(after)
            == if user.Some? && user.value.JObject? && Truthy(Json.Member(user.value, "name"))
                  && StoredText(token) != ""
               then AuthView(true, Json.Member(user.value, "name").value)
               else LoggedOut
  {
    var after := store["user" := StoredUser(user)]["token" := StoredText(token)];
    assert GetItem(after, "user") == Some(StoredUser(user));
    match user {
      case None =>
        Json.DecodeRejects();
      case Some(j) =>
        Json.DecodeEncode(j);
        assert Json.Encode(j) != "" by {
          if j.JObject? { assert Json.Encode(j)[0] == '{'; }
        }
    }
  }

  /** Removing both session keys leaves every other entry and yields the logged-out view. */
  lemma LogoutThenDeriveAuth(store: Store)
    ensures var after := store - {"user", "token"};
            DeriveAuth(after) == LoggedOut && Paired(after)
            && forall k :: k in store && k != "user" && k != "token" ==> k in after && after[k] == store[k]
  {
  }

  /** `JSON.parse(localStorage.getItem("user"))`: a missing key reads as `null`; an empty or
      malformed entry throws a SyntaxError. */
  function ParseStoredUser(store: Store): (r: Result<Json.Json>)
    ensures "user" !in store ==> r == Ok(Json.JNull)
    ensures "user" in store && store["user"] == "" ==> r == Err(SyntaxError)
    ensures "user" in store && store["user"] != "" ==>
              (r.Ok? <==> Json.Decode(store["user"]).Some?)
              && (r.Ok? ==> r.value == Json.Decode(store["user"]).value)
    ensures r.Err? ==> r.error == SyntaxError
  {
    var raw := GetItem(store, "user");
    match Json.Decode(if raw.Some? then raw.value else "null")
    case None => Err(SyntaxError)
    case Some(j) => Ok(j)
  }

  /** `user?.id || user?._id`: the owner id the notes list filters on. */
  function UserId(store: Store): (r: Result<Option<string>>)
    ensures r.Ok? <==> ParseStoredUser(store).Ok?
    ensures r.Ok? && r.value.Some? ==>
              var user := ParseStoredUser(store).value;
              user.JObject? && (("id", r.value.value) in user.members || ("_id", r.value.value) in user.members)
    ensures "user" !in store ==> r == Ok(None)
    ensures r.Ok? ==> var user := ParseStoredUser(store).value;
                      Truthy(Json.Member(user, "id")) ==> r.value == Json.Member(user, "id")
    ensures r.Ok? ==> var user := ParseStoredUser(store).value;
                      !Truthy(Json.Member(user, "id")) ==> r.value == Json.Member(user, "_id")
  {
    match ParseStoredUser(store)
    case Err(e) => Err(e)
    case Ok(user) =>
      var id := Json.Member(user, "id");
      Ok(if Truthy(id) then id else Json.Member(user, "_id"))
  }

  /** The owner id after a login: the logged-in user's `id` when truthy, else its `_id`. */
  lemma LoginThenUserId(store: Store, members: seq<(string, string)>, token: Option<string>)
    ensures var user := Json.JObject(members);
            var after := store["user" := StoredUser(Some(user))]["token" := StoredText(token)];
            UserId(after) == Ok(if Truthy(Json.Member(user, "id")) then Json.Member(user, "id")
                                else Json.Member(user, "_id"))
  {
    Json.DecodeEncode(Json.JObject(members));
  }

  /** `JSON.parse(localStorage.getItem("user")) || {}`: `null` becomes the empty record. */
  function DashboardUser(store: Store): (r: Result<Json.Json>)
    ensures r.Ok? ==> r.value.JObject?
    ensures "user" !in store ==> r == Ok(Json.JObject([]))
    ensures r.Ok? <==> ParseStoredUser(store).Ok?
    ensures ParseStoredUser(store).Ok? && ParseStoredUser(store).value.JObject? ==> r == ParseStoredUser(store)
    ensures ParseStoredUser(store) == Ok(Json.JNull) ==> r == Ok(Json.JObject([]))
  {
    match ParseStoredUser(store)
    case Err(e) => Err(e)
    case Ok(user) => Ok(if user.JNull? then Json.JObject([]) else user)
  }

  /** `user.name || user.username`: the name wins when it is truthy; the result is truthy
      when either of the two is, and is always one of the two members. */
  function DisplayName(user: Json.Json): (r: Option<string>)
    ensures Truthy(r) <==> Truthy(Json.Member(user, "name")) || Truthy(Json.Member(user, "username"))
    ensures r.Some? ==> user.JObject? && (("name", r.value) in user.members || ("username", r.value) in user.members)
    ensures Truthy(Json.Member(user, "name")) ==> r == Json.Member(user, "name")
    ensures r == Json.Member(user, "name") || r == Json.Member(user, "username")
  {
    var name := Json.Member(user, "name");
    if Truthy(name) then name else Json.Member(user, "username")
  }

  /** `JSON.stringify(isDarkMode)`; the saved text reads back as the same flag. */
  function ShowBool(b: bool): (t: string)
    ensures InitialDarkMode(Some(t)) == Some(b)
  {
    if b then "true" else "false"
  }

  /** The initial dark-mode flag, `saved ? JSON.parse(saved) : false`: false without a saved
      value; `None` when the saved text is not a boolean. */
  function InitialDarkMode(saved: Option<string>): (r: Option<bool>)
    ensures !Truthy(saved) ==> r == Some(false)
    ensures r == Some(true) <==> saved == Some("true")
  {
    if !Truthy(saved) then Some(false)
    else if saved.value == "true" then Some(true)
    else if saved.value == "false" then Some(false)
    else None
  }
}
