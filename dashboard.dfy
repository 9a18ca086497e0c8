/** The dashboard: the user's initials and greeting, the stats cards, the recent notes and
    the logout and delete buttons. */
module Dashboard {
  import opened Wrappers
  import opened Seqs
  import opened Text
  import opened NoteList
  import Session
  import Json
  import Browser
  import Navbar

  /** `w[0]` used in a string concatenation: an empty word contributes the text `undefined`
      when the other word is not empty. Two empty words would give `NaN` and a TypeError on
      `toUpperCase`, but after `trim` the first and last words are never empty (`WordsOfName`). */
  function FirstChar(w: string): string
  {
    if w == "" then "undefined" else [w[0]]
  }

  /** `getInitials` as written: a name that is not empty but only blanks passes the `!name`
      guard, trims to "", splits to `[""]`, and `names[0][0].toUpperCase()` throws. */
  function GetInitialsAsWritten(name: string): Result<string>
  {
    if name == "" then Ok("U")
    else
      var names := Split(Trim(name));
      if |names| == 1 then
        if names[0] == "" then Err(TypeError) else Ok(Upper([names[0][0]]))
      else Ok(Upper(FirstChar(names[0]) + FirstChar(names[|names| - 1])))
  }

  /** The failing input: a single space. */
  lemma BlankNameThrows()
    ensures GetInitialsAsWritten(" ") == Err(TypeError)
  {
    assert Trim(" ") == "";
  }

  /** The original throws exactly on the non-empty names made only of blanks. */
  lemma AsWrittenThrowsIff(name: string)
    ensures GetInitialsAsWritten(name).Err?
            <==> name != "" && forall k :: 0 <= k < |name| ==> IsTrimSpace(name[k])
  {
    var t := Trim(name);
    if t != "" {
      SplitFirst(t);
    }
  }

  /** `getInitials` with the blank name read as no name: "U". */
  function GetInitials(name: string): string
  {
    var t := Trim(name);
    if t == "" then "U"
    else
      var names := Split(t);
      if |names| == 1 then Upper([names[0][0]])
      else Upper(FirstChar(names[0]) + FirstChar(names[|names| - 1]))
  }

  /** For a name that is not blank: the words of the trimmed name, the first of which starts
      the trimmed name and the last of which is not empty. */
  lemma WordsOfName(t: string)
    requires t != "" && !IsTrimSpace(t[0]) && !IsTrimSpace(t[|t| - 1])
    ensures var names := Split(t);
            names[0] != "" && names[0][0] == t[0] && names[|names| - 1] != ""
            && (' ' in t <==> |names| >= 2)
  {
    var names := Split(t);
    SplitFirst(t);
    SplitLast(t);
    assert names[0][0] == t[0] by {
      assert t == [t[0]] + t[1..];
    }
    if ' ' in t {
      SplitSeveral(t);
    } else {
      SplitNoSpace(t);
    }
  }

  /** The initials are "U" for a missing or blank name; otherwise the upper-cased first
      letter of the trimmed name, followed, when it has several words, by the upper-cased
      first letter of its last word. */
  lemma GetInitialsSpec(name: string)
    ensures Trim(name) == "" ==> GetInitials(name) == "U"
    ensures var t := Trim(name);
            t != "" && ' ' !in t ==> GetInitials(name) == [UpperChar(t[0])]
    ensures var t := Trim(name);
            var names := Split(t);
            t != "" && ' ' in t ==> |names| >= 2 && names[|names| - 1] != ""
                                    && GetInitials(name) == [UpperChar(t[0]), UpperChar(names[|names| - 1][0])]
  {
    var t := Trim(name);
    if t != "" {
      WordsOfName(t);
    }
  }

  /** One or two characters, none of them a lower-case letter. */
  lemma GetInitialsShape(name: string)
    ensures 1 <= |GetInitials(name)| <= 2
    ensures forall k :: 0 <= k < |GetInitials(name)| ==> !('a' <= GetInitials(name)[k] <= 'z')
  {
    GetInitialsSpec(name);
  }

  /** Wherever the original does not throw, it gives the same initials. */
  lemma AsWrittenAgrees(name: string)
    ensures GetInitialsAsWritten(name).Ok? ==> GetInitialsAsWritten(name).value == GetInitials(name)
  {
    var t := Trim(name);
    if t != "" {
      WordsOfName(t);
    }
  }

  /** A text with a space has at least two words. */
  lemma {:induction false} SplitSeveral(s: string)
    requires ' ' in s
    ensures |Split(s)| >= 2
  {
    if s[0] != ' ' {
      assert ' ' in s[1..] by {
        var k :| 0 <= k < |s| && s[k] == ' ';
        assert s[1..][k - 1] == ' ';
      }
      SplitSeveral(s[1..]);
    }
  }

  /** A text without a space is one word. */
  lemma {:induction false} SplitNoSpace(s: string)
    requires ' ' !in s
    ensures Split(s) == [s]
  {
    if s != [] {
      SplitNoSpace(s[1..]);
      assert [s[0]] + s[1..] == s;
    }
  }

  /** `notes.slice(0, 4)`. */
  function Recent(notes: seq<Note>): (r: seq<Note>)
    ensures r <= notes
    ensures |r| == if |notes| < 4 then |notes| else 4
  {
    Take(notes, 4)
  }

  /** What the dashboard renders from its state. */
  datatype DashboardView = DashboardView(greeting: Option<string>, initials: string, stats: Stats, recent: seq<Note>)

  class DashboardPage {
    const window: Browser.Window
    var notes: seq<Note>
    var loading: bool
    var error: string

    constructor (w: Browser.Window)
      ensures window == w
      ensures notes == [] && loading && error == ""
    {
      window := w;
      notes, loading, error := [], true, "";
    }

    /** `fetchNotes`: on success the list is replaced; on failure it is kept and the error set. */
    method FetchNotes(outcome: FetchOutcome)
      modifies this`notes, this`loading, this`error
      ensures !loading
      ensures outcome.Fetched? ==> notes == outcome.data && error == ""
      ensures outcome.FetchFailed? ==> notes == old(notes) && error == LoadError
    {
      loading := true;
      error := "";
      match outcome {
        case Fetched(data) => notes := data;
        case FetchFailed => error := LoadError;
      }
      loading := false;
    }

    /** `handleDelete`, as written: the handler closes over `rendered`, the list of the render
        whose button was clicked, and only a confirmed delete answered with 204 sets the list,
        to `rendered` without the notes of that id. */
    method HandleDelete(rendered: seq<Note>, id: string, confirmed: bool, outcome: DeleteOutcome)
      modifies this`notes
      ensures notes == if confirmed && outcome == DeleteStatus(204) then RemoveById(rendered, id) else old(notes)
    {
      if !confirmed {
        return;
      }
      match outcome {
        case DeleteStatus(status) =>
          if status == 204 {
            notes := RemoveById(rendered, id);
          }
        case DeleteThrew =>
      }
    }

    /** Two deletes started from the same render, whose replies both arrive with 204: the note
        deleted first is back in the list. */
    method InterleavedDeletes(a: Note, b: Note)
      requires a in notes && b in notes && a.id != b.id
      modifies this`notes
      ensures a in notes && b !in notes
    {
      var rendered := notes;
      HandleDelete(rendered, a.id, true, DeleteStatus(204));
      HandleDelete(rendered, b.id, true, DeleteStatus(204));
      InterleavedDeletesLoseOne(rendered, a, b);
    }

    /** `handleDelete` with the update applied to the current list
        (`setNotes((prev) => prev.filter(...))`). */
    method HandleDeleteCurrent(id: string, confirmed: bool, outcome: DeleteOutcome)
      modifies this`notes
      ensures notes == if confirmed && outcome == DeleteStatus(204) then RemoveById(old(notes), id) else old(notes)
    {
      if confirmed && outcome == DeleteStatus(204) {
        notes := RemoveById(notes, id);
      }
    }

    /** With the corrected handler two overlapping deletes remove both notes, in either order
        of the replies. */
    method SequentialDeletes(x: string, y: string)
      modifies this`notes
      ensures forall n :: n in notes <==> n in old(notes) && n.id != x && n.id != y
      ensures notes == RemoveById(RemoveById(old(notes), y), x)
    {
      HandleDeleteCurrent(x, true, DeleteStatus(204));
      HandleDeleteCurrent(y, true, DeleteStatus(204));
      SequentialDeletesRemoveBoth(old(notes), x, y);
    }


    /** `handleLogout`: removes both session keys and dispatches "authChanged", so a mounted
        navigation bar shows the logged-out state at once. */
    method HandleLogout(nav: Navbar.Navbar)
      requires nav.Valid() && nav.window == window
      modifies window`localStorage, nav`isLoggedIn, nav`userName
      ensures window.localStorage == old(window.localStorage) - {"user", "token"}
      ensures nav.mounted ==> !nav.isLoggedIn && nav.userName == ""
      ensures !nav.mounted ==> nav.isLoggedIn == old(nav.isLoggedIn) && nav.userName == old(nav.userName)
    {
      window.RemoveItem("user");
      window.RemoveItem("token");
      Session.LogoutThenDeriveAuth(old(window.localStorage));
      Navbar.DispatchAuthChanged(nav);
    }

    /** The render: it throws when reading the stored user throws, and when `getInitials` throws
        on the display name (a name made of white space alone). */
    function View(): (r: Result<DashboardView>)
      reads this, window
      ensures r.Ok? <==> Session.DashboardUser(window.localStorage).Ok?
                         && GetInitialsAsWritten(Session.DisplayName(Session.DashboardUser(window.localStorage).value).GetOr("")).Ok?
      ensures r.Err? && Session.DashboardUser(window.localStorage).Ok? ==> r.error == TypeError
      ensures r.Ok? ==> r.value.greeting == Session.DisplayName(Session.DashboardUser(window.localStorage).value)
      ensures r.Ok? ==> 1 <= |r.value.initials| <= 2
      ensures r.Ok? ==> r.value.initials == GetInitials(r.value.greeting.GetOr(""))
      ensures r.Ok? && Trim(r.value.greeting.GetOr("")) == "" ==> r.value.initials == "U"
      ensures r.Err? && Session.DashboardUser(window.localStorage).Err? ==> r.error == SyntaxError
      ensures r.Ok? ==> r.value.stats == CountStats(notes)
      ensures r.Ok? ==> r.value.recent == Recent(notes)
      ensures r.Ok? ==> r.value.stats.total == |notes|
                        && r.value.stats.publicNotes + r.value.stats.privateNotes == |notes|
      ensures r.Ok? ==> r.value.recent <= notes && |r.value.recent| == if |notes| < 4 then |notes| else 4
    {
      match Session.DashboardUser(window.localStorage)
      case Err(e) => Err(e)
      case Ok(user) =>
        var shown := Session.DisplayName(user);
        var name := shown.GetOr("");
        AsWrittenAgrees(name);
        GetInitialsShape(name);
        GetInitialsSpec(name);
        match GetInitialsAsWritten(name)
        case Err(e) => Err(e)
        case Ok(initials) => Ok(DashboardView(shown, initials, CountStats(notes), Recent(notes)))
    }
  }

  /** A stored user whose name is a single space makes the dashboard render throw. */
  lemma BlankNameBreaksDashboard(page: DashboardPage)
    requires "user" in page.window.localStorage
    requires page.window.localStorage["user"] == Json.Encode(Json.JObject([("name", " ")]))
    ensures page.View() == Err(TypeError)
  {
    Json.DecodeEncode(Json.JObject([("name", " ")]));
    BlankNameThrows();
  }
}
