/** The login form: its field updates and what a submit writes to `localStorage` and shows. */
module Login {
  import opened Wrappers
  import opened Session
  import Json
  import Browser

  /** The parsed body of the login response: `data.user`, `data.token`, `data.message`. */
  datatype LoginBody = LoginBody(user: Option<Json.Json>, token: Option<string>, message: Option<string>)

  /** How the request ended: no response (the fetch threw), or a response with its `ok` flag
      and its body, `None` when `res.json()` throws. */
  datatype LoginResponse = NoResponse | Reply(ok: bool, body: Option<LoginBody>)

  const Success := "Login successful!"
  const Failed := "Login failed."
  const Unreachable := "Error connecting to backend."

  class LoginPage {
    const window: Browser.Window
    var form: map<string, string>
    var message: string

    constructor (w: Browser.Window)
      ensures window == w
      ensures form == map["email" := "", "password" := ""] && message == ""
    {
      window := w;
      form := map["email" := "", "password" := ""];
      message := "";
    }

    /** `handleChange`: sets the field named by the input's id and keeps every other field. */
    method HandleChange(id: string, value: string)
      modifies this`form
      ensures form == old(form)[id := value]
      ensures forall k :: k != id ==> (k in form <==> k in old(form))
      ensures forall k :: k != id && k in form ==> form[k] == old(form)[k]
    {
      form := form[id := value];
    }

    /** The synchronous start of `handleSubmit`, rendered while the request is pending: the
        message is cleared and nothing is stored yet. */
    method BeginSubmit()
      modifies this`message
      ensures message == ""
    {
      message := "";
    }

    /** The rest of `handleSubmit`, once the request has ended: on an OK reply both session keys
        are written; otherwise the storage is left alone and the message explains why. */
    method FinishSubmit(response: LoginResponse)
      modifies this`message, window`localStorage
      ensures response.NoResponse? || response.body.None? ==>
                message == Unreachable && window.localStorage == old(window.localStorage)
      ensures response.Reply? && response.ok && response.body.Some? ==>
                var data := response.body.value;
                && message == Success
                && window.localStorage == old(window.localStorage)["user" := StoredUser(data.user)]["token" := StoredText(data.token)]
                && Paired(window.localStorage) && "user" in window.localStorage
      ensures response.Reply? && !response.ok && response.body.Some? ==>
                var data := response.body.value;
                && message == (if Truthy(data.message) then data.message.value else Failed)
                && window.localStorage == old(window.localStorage)
    {
      match response {
        case NoResponse =>
          message := Unreachable;
        case Reply(ok, body) =>
          if body.None? {
            message := Unreachable;
          } else if ok {
            var data := body.value;
            message := Success;
            window.SetItem("user", StoredUser(data.user));
            window.SetItem("token", StoredText(data.token));
          } else {
            var data := body.value;
            message := if Truthy(data.message) then data.message.value else Failed;
          }
      }
    }

    /** `handleSubmit` from start to end. The pending state between the two steps is the one
        `BeginSubmit` leaves: an empty message and the storage as it was. */
    method HandleSubmit(response: LoginResponse) returns (pending: string)
      modifies this`message, window`localStorage
      ensures pending == ""
      ensures response.NoResponse? || response.body.None? ==>
                message == Unreachable && window.localStorage == old(window.localStorage)
      ensures response.Reply? && response.ok && response.body.Some? ==>
                var data := response.body.value;
                && message == Success
                && window.localStorage == old(window.localStorage)["user" := StoredUser(data.user)]["token" := StoredText(data.token)]
      ensures response.Reply? && !response.ok && response.body.Some? ==>
                var data := response.body.value;
                && message == (if Truthy(data.message) then data.message.value else Failed)
                && window.localStorage == old(window.localStorage)
    {
      BeginSubmit();
      pending := message;
      FinishSubmit(response);
    }
  }
}
