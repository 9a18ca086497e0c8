# ThinkPad Online notes client: a verified model of its list and session logic

This project models the logic inside the React client of an online notes app. It covers three parts:

- **The note-list pipeline** of the "My Notes" page (`src/pages/AllNotes.jsx`) and the dashboard (`src/pages/Dashboard.jsx`):
  - the notes are narrowed to the logged-in user's;
  - they are searched case-insensitively in title and content and filtered by visibility;
  - they are sorted by one of four timestamp orders;
  - the page counts public and private notes and shows the four most recent;
  - a note leaves the list after a successful delete.
- **The session and preference store** in `localStorage`:
  - the navigation bar (`src/components/Navbar.jsx`) derives the login state from the stored `user` and `token`;
  - it follows the `authChanged` and `storage` events, logs out and persists the dark-mode flag;
  - the dashboard logs out; the login form (`src/pages/Login.jsx`) writes the session on success.
- **`getInitials`**, the dashboard's avatar text.

The modules follow the source:

| module | contents |
|---|---|
| `Browser` | `window`: the `localStorage` map and the set of registered event listeners, as a class |
| `Json` | the subset of `JSON.stringify`/`JSON.parse` the app relies on: `null` and flat objects with string members, with a proved round trip |
| `Text` | `trim`, `split(" ")`, ASCII `toLowerCase`/`toUpperCase` and `includes` |
| `Seqs` | `filter` and `slice` |
| `NoteList` | the `Note` record, ownership, removal by id, the stats counts and the outcomes of the two requests |
| `Session` | pure readings of the store: `checkAuth`'s result, the owner id, the dashboard user, the display name and the dark-mode flag |
| `AllNotes`, `Dashboard`, `Navbar`, `Login` | one class per component, holding its React state as fields |

Component state set by `setState` is a class field that the handler methods reassign. A render is a function `View` of the state and the storage. A request's result (`fetch`, `res.json()`, `window.confirm`) is a parameter of the handler.

Where the code and its description disagree, the model follows the code:

- A login does not dispatch `authChanged`. It writes the two keys and schedules a page load. The navigation bar catches up when it mounts again.
- `getInitials` throws only on a name made of blanks alone. Inner double spaces do not throw: after `trim`, the first and the last words are never empty.
- The dashboard renders without looking at the token.

## Model

| member | source | states |
|---|---|---|
| Seqs.KeepMembers | src/pages/AllNotes.jsx:60 | an element survives `filter` iff it was in the list and passes the predicate; the result is never longer |
| Seqs.KeepMultiset | src/pages/AllNotes.jsx:60 | `filter` keeps every copy of a passing element and none of a failing one |
| Seqs.KeepSubseq | src/pages/AllNotes.jsx:60 | `filter` keeps the original relative order |
| Seqs.KeepComplement | src/pages/Dashboard.jsx:72-73 | filtering by a predicate and by its negation splits the length |
| Seqs.KeepLength | src/pages/Dashboard.jsx:72 | `filter` keeps the whole length iff every element passes |
| Seqs.KeepCount | src/pages/Dashboard.jsx:72-73 | the length of `filter` is the number of positions whose element passes |
| Seqs.KeepAppend | src/pages/AllNotes.jsx:60 | `filter` distributes over concatenation |
| Seqs.Take | src/pages/Dashboard.jsx:74 | `slice(0, n)` is a prefix whose length is the smaller of `n` and the length of `s` |
| Text.Trim | src/pages/Dashboard.jsx:7 | `trim` yields the slice of the input that drops only white space before and after it; the slice has no JavaScript white space at either end and is empty iff the input is all white space |
| Text.Split | src/pages/Dashboard.jsx:7 | `split(" ")` gives at least one piece and no piece holds a space |
| Text.JoinSplit | src/pages/Dashboard.jsx:7 | joining the pieces with single spaces gives back the input, so nothing is lost |
| Text.SplitFirst | src/pages/Dashboard.jsx:8 | the first piece is empty iff the text is empty or starts with a space |
| Text.SplitLast | src/pages/Dashboard.jsx:9 | the last piece is empty iff the text is empty or ends with a space |
| Text.UpperChar | src/pages/Dashboard.jsx:8 | `toUpperCase` leaves no lower-case letter and keeps the letter's case-folded identity |
| Text.IncludesIff | src/pages/AllNotes.jsx:80-81 | `includes` holds iff the needle occurs at some index of the haystack |
| Json.Member | src/components/Navbar.jsx:20 | a property read on an object finds a value iff some member has the key; the value is that of the last member with the key, as `JSON.parse` keeps the last duplicate; otherwise `undefined` |
| Json.DecodeStringRoundTrip | src/pages/Login.jsx:24 | an escaped string literal parses back to the same string and the text after it |
| Json.DecodeMembersRoundTrip | src/pages/Login.jsx:24 | a serialised member list parses back to the same members |
| Json.DecodeEncode | src/pages/Login.jsx:24 | `JSON.parse(JSON.stringify(user))` gives back the same user record |
| Json.DecodeRejects | src/components/Navbar.jsx:17 | the texts `"undefined"` and `""` are not JSON, so parsing them throws |
| Session.DeriveAuth | src/components/Navbar.jsx:15-34 | logged in iff the stored user parses to an object with a truthy `name` and the token is truthy, both directions; the shown name is then that `name`, and it is empty iff logged out |
| Session.DeriveAuthLoggedOut | src/components/Navbar.jsx:17-33 | a missing, empty or malformed user, or a missing token, reads as logged out without an error escaping |
| Session.DeriveAuthFrame | src/components/Navbar.jsx:46-51 | the login state depends on the `user` and `token` entries alone |
| Session.LoginThenDeriveAuth | src/pages/Login.jsx:21-25 | after the login write, the bar derives exactly the response user's name, or logged out when the user has no truthy name |
| Session.LogoutThenDeriveAuth | src/pages/Dashboard.jsx:44-46 | removing the two session keys keeps every other entry and derives the logged-out state |
| Session.ParseStoredUser | src/pages/AllNotes.jsx:59 | a missing `user` entry parses as `null`; a present one parses to what its text encodes, and throws a SyntaxError iff the text is not JSON (the empty text included) |
| Session.UserId | src/pages/AllNotes.jsx:59 | the owner id is the parsed user's `id` when truthy, else its `_id`, and is a member of the stored object; it throws exactly when parsing throws; without a stored user it is `undefined` |
| Session.LoginThenUserId | src/pages/AllNotes.jsx:59 | after a login, the owner id is the response user's `id` when truthy, else its `_id` |
| Session.DashboardUser | src/pages/Dashboard.jsx:13 | the dashboard user is always an object: a stored object unchanged, the empty one for a stored `null` or nothing stored; it throws exactly when parsing throws |
| Session.DisplayName | src/pages/Dashboard.jsx:83 | the shown name is the `name` property or the `username` property (last duplicate wins for each), `name` when that is truthy, and it is truthy iff one of the two is |
| Session.ShowBool | src/components/Navbar.jsx:68 | the saved dark-mode text reads back as the same flag |
| Session.InitialDarkMode | src/components/Navbar.jsx:7-10 | the initial flag is false without a saved value, and true exactly when `"true"` was saved |
| NoteList.OwnedSpec | src/pages/AllNotes.jsx:59-60 | `myNotes` holds exactly the notes whose `user` is the owner id, every copy and in order; it is empty without an id |
| NoteList.RemoveByIdSpec | src/pages/AllNotes.jsx:49-50 | removal drops exactly the notes with that id, keeps the others in order, and changes nothing when no note has the id |
| NoteList.InterleavedDeletesLoseOne | src/pages/AllNotes.jsx:49-50 | filtering the same captured list for two different ids: the second result still holds the note the first removed |
| NoteList.RemoveByIdCommutes | src/pages/AllNotes.jsx:50 | removing one id and then another gives the same list in either order |
| NoteList.SequentialDeletesRemoveBoth | src/pages/AllNotes.jsx:50 | removing two ids one after the other keeps exactly the notes with neither id, in either order |
| NoteList.CountStats | src/pages/Dashboard.jsx:71-73 | the total is the note count; the public and private counts are the numbers of positions holding a public or a private note, and they sum to the total |
| AllNotes.MatchesSearchIff | src/pages/AllNotes.jsx:80-81 | a note matches iff the lower-cased term occurs in its lower-cased title or content; the empty term matches every note |
| AllNotes.FilterNotesSpec | src/pages/AllNotes.jsx:79-86 | a note is kept iff it matches the search and the visibility filter; order is kept; no search with `"all"` keeps all; an unknown filter keeps none |
| AllNotes.InsertionSortSpec | src/pages/AllNotes.jsx:67 | the sort yields a sorted permutation of its input |
| AllNotes.InsertionSortStable | src/pages/AllNotes.jsx:67 | notes with equal timestamps keep their relative order |
| AllNotes.SortNotesSpec | src/pages/AllNotes.jsx:62-77 | `sortNotes` returns a permutation; each of the four options orders by its field and direction; any other option returns the list unchanged |
| AllNotes.SortNotesStable | src/pages/AllNotes.jsx:62-77 | for each option, notes sharing a timestamp keep their order |
| AllNotes.VisibleSpec | src/pages/AllNotes.jsx:88 | the shown notes are exactly the owned matching ones, each as often as it is owned, sorted by the option (unchanged for an unknown one), and never more than the owned ones |
| AllNotes.AllNotesPage.constructor | src/pages/AllNotes.jsx:7-12 | initial state: no notes, loading, no error, no search, filter `"all"`, sort `"newest"` |
| AllNotes.AllNotesPage.FetchNotes | src/pages/AllNotes.jsx:18-36 | a fetched list replaces the notes and clears the error; a failure keeps them and sets "Could not load notes."; loading ends either way |
| AllNotes.AllNotesPage.HandleDelete | src/pages/AllNotes.jsx:40-57 | a confirmed delete answered with 204 sets the list to the clicked render's list without the notes of that id; any other outcome leaves the list |
| AllNotes.AllNotesPage.InterleavedDeletes | src/pages/AllNotes.jsx:40-57 | two deletes started from one render, both answered 204: the first deleted note is back in the list |
| AllNotes.AllNotesPage.HandleDeleteCurrent | src/pages/AllNotes.jsx:49-50 | the corrected handler removes the notes of that id from the current list on a confirmed 204 |
| AllNotes.AllNotesPage.SequentialDeletes | src/pages/AllNotes.jsx:49-50 | with the corrected handler, two deletes remove both notes and keep every other, whichever reply comes first |
| AllNotes.AllNotesPage.SetSearchTerm | src/pages/AllNotes.jsx:120 | the search box sets the term |
| AllNotes.AllNotesPage.SetFilter | src/pages/AllNotes.jsx:130 | the select sets the visibility filter |
| AllNotes.AllNotesPage.SetSortBy | src/pages/AllNotes.jsx:144 | the select sets the sort option |
| AllNotes.AllNotesPage.View | src/pages/AllNotes.jsx:59-88 | the render throws exactly when the owner id does; otherwise the shown list is the sorted, filtered owned notes (so `VisibleSpec` applies), the owned count is the number of owned notes and the stats are those of the owned notes |
| Dashboard.BlankNameThrows | src/pages/Dashboard.jsx:5-8 | the original `getInitials(" ")` throws a TypeError |
| Dashboard.AsWrittenThrowsIff | src/pages/Dashboard.jsx:5-9 | the original throws exactly on non-empty names made of white space alone |
| Dashboard.AsWrittenAgrees | src/pages/Dashboard.jsx:5-9 | wherever the original does not throw, it returns the corrected initials |
| Dashboard.WordsOfName | src/pages/Dashboard.jsx:7-9 | for a non-blank trimmed name, the first and last words are non-empty, and there are two or more words iff it holds a space |
| Dashboard.GetInitialsSpec | src/pages/Dashboard.jsx:5-10 | "U" for a missing or blank name; the first letter upper-cased for one word; first and last words' first letters upper-cased otherwise |
| Dashboard.GetInitialsShape | src/pages/Dashboard.jsx:8-9 | the initials are one or two characters with no lower-case letter |
| Dashboard.SplitSeveral | src/pages/Dashboard.jsx:9 | a text with a space splits into at least two words |
| Dashboard.SplitNoSpace | src/pages/Dashboard.jsx:8 | a text without a space is a single word |
| Dashboard.Recent | src/pages/Dashboard.jsx:74 | `recentNotes` is a prefix of the notes whose length is the smaller of 4 and the number of notes |
| Dashboard.DashboardPage.constructor | src/pages/Dashboard.jsx:15-17 | initial state: no notes, loading, no error |
| Dashboard.DashboardPage.FetchNotes | src/pages/Dashboard.jsx:22-40 | a fetched list replaces the notes; a failure keeps them and sets the error; loading ends either way |
| Dashboard.DashboardPage.HandleDelete | src/pages/Dashboard.jsx:51-68 | a confirmed delete answered with 204 sets the list to the clicked render's list without the notes of that id; any other outcome leaves the list |
| Dashboard.DashboardPage.InterleavedDeletes | src/pages/Dashboard.jsx:51-68 | two deletes started from one render, both answered 204: the first deleted note is back in the list |
| Dashboard.DashboardPage.HandleDeleteCurrent | src/pages/Dashboard.jsx:60-61 | the corrected handler removes the notes of that id from the current list on a confirmed 204 |
| Dashboard.DashboardPage.SequentialDeletes | src/pages/Dashboard.jsx:60-61 | with the corrected handler, two deletes remove both notes and keep every other, whichever reply comes first |
| Dashboard.DashboardPage.HandleLogout | src/pages/Dashboard.jsx:44-47 | exactly the two session keys are removed; a mounted navigation bar then shows logged out, and an unmounted one is untouched |
| Dashboard.DashboardPage.View | src/pages/Dashboard.jsx:71-87 | the render throws a SyntaxError when reading the user throws, and a TypeError exactly when the original `getInitials` throws on the display name; otherwise the greeting is the display name, the initials are 1-2 characters ("U" for no name), the stats are those of all the notes and recent is their first four |
| Dashboard.BlankNameBreaksDashboard | src/pages/Dashboard.jsx:83 | a stored user named `" "` makes the dashboard render throw a TypeError |
| Browser.Window.NewHandler | src/components/Navbar.jsx:41-51 | each handler closure has a fresh identity, distinct from every registered listener |
| Navbar.Navbar.Mount | src/components/Navbar.jsx:6-69 | mounting reads the saved dark-mode flag, derives the login state, registers two fresh listeners and saves the flag, changing no other key |
| Navbar.Navbar.CheckAuth | src/components/Navbar.jsx:15-34 | the shown state becomes exactly the one derived from the storage |
| Navbar.Navbar.HandleAuthChanged | src/components/Navbar.jsx:41-44 | an `authChanged` event re-derives the shown state |
| Navbar.Navbar.HandleStorageChange | src/components/Navbar.jsx:46-51 | a `storage` event re-derives only for the keys `user` and `token`; any other key leaves the state |
| Navbar.Navbar.ToggleDarkMode | src/components/Navbar.jsx:62-71 | the flag is negated and the storage then holds the new flag, which reads back as itself |
| Navbar.Navbar.ToggleMobileMenu | src/components/Navbar.jsx:143 | the menu button flips the menu |
| Navbar.Navbar.CloseMobileMenu | src/components/Navbar.jsx:183 | a menu link closes the menu |
| Navbar.Navbar.HandleLogout | src/components/Navbar.jsx:73-82 | exactly the two session keys go, `darkMode` stays; the bar shows logged out with the menu closed, and re-deriving agrees |
| Navbar.Navbar.Unmount | src/components/Navbar.jsx:56-59 | the cleanup removes exactly the two listeners it added |
| Navbar.MountThenUnmount | src/components/Navbar.jsx:53-59 | mounting and then unmounting restores the window's listener set |
| Navbar.CheckAuthTwice | src/components/Navbar.jsx:15-34 | `checkAuth` is idempotent on an unchanged storage |
| Navbar.DispatchAuthChanged | src/components/Navbar.jsx:80 | dispatching `authChanged` re-derives the state of a mounted bar and leaves an unmounted one alone |
| Login.LoginPage.constructor | src/pages/Login.jsx:4-5 | the form starts with empty email and password and no message |
| Login.LoginPage.HandleChange | src/pages/Login.jsx:7-9 | only the field named by the input id changes |
| Login.LoginPage.BeginSubmit | src/pages/Login.jsx:12-13 | the message is cleared before the request is sent |
| Login.LoginPage.FinishSubmit | src/pages/Login.jsx:14-35 | the outcome of the request decides the message and whether both session keys, paired, are written |
| Login.LoginPage.HandleSubmit | src/pages/Login.jsx:11-36 | the pending state shows an empty message; on an OK reply both session keys are written with "Login successful!"; on a non-OK reply the message is `data.message` or "Login failed." and storage is unchanged; on an exception "Error connecting to backend." and storage is unchanged |

## Left out

- Network requests (`fetch`, status codes, `res.json()`) are not modelled. Their outcome is a parameter of the handler: `FetchOutcome`, `DeleteOutcome` and `LoginResponse`.
- JSX markup, CSS classes and the `classList` toggling of the dark theme are not modelled. They are rendering only.
- `window.confirm` is not modelled; its answer is the `confirmed` parameter. `alert`, `console.log`, `navigate`, the `setTimeout` redirect and `window.location` are host effects and are omitted.
- Delivery of `storage` events from other tabs is out of scope. `HandleStorageChange` models the handler once such an event arrives.
- Only one subscriber, the navigation bar, receives `authChanged` in the model. The app has no other subscriber.
- Text.Lower, Text.UpperChar: cover ASCII letters only. Full Unicode case mapping and UTF-16 code units are not modelled.
- Dates are not parsed. `createdAt` and `updatedAt` are integers, so invalid dates that compare as `NaN` are not covered.
- Json.Decode: accepts only `null` and flat objects whose member values are strings, with no white space between tokens. Any other JSON text is treated as a SyntaxError. The app only ever stores the user record written at login, which has this shape in the model. `\u` escapes of UTF-16 surrogates (`\uD800` to `\uDFFF`), which `JSON.parse` accepts as surrogate pairs, are rejected, since strings here are code points; `JSON.stringify` never writes them, so the round trip is unaffected.
- Navbar.Navbar.Mount: requires the saved `darkMode` text to be empty, missing, `"true"` or `"false"`. Any other JSON value saved there is outside the model.
- Browser.Window.SetItem: does not model the storage-quota exception.
- Login.LoginPage.HandleSubmit: the time between `BeginSubmit` and `FinishSubmit` is not modelled; the pending state is what `BeginSubmit` leaves, and no other handler runs in between.
- The remaining pages are not part of this model: `CreateNotes`, `UpdateNotes`, `Signup`, `Community`, `Home` and the route table in `App.js`. Each is markup around one request.

## Findings

| source | as written | input that shows it | evidently intended | confidence | as-written member | corrected member |
|---|---|---|---|---|---|---|
| src/pages/Dashboard.jsx:6-8 | `!name` lets a blank name through; `trim` makes it `""`, `split` gives `[""]`, and `names[0][0].toUpperCase()` reads a property of `undefined` | a stored user whose `name` is `" "` makes `getInitials(" ")` throw a TypeError, crashing the dashboard render | a blank name is treated like a missing one and shows "U" | not executed | Dashboard.BlankNameBreaksDashboard | Dashboard.GetInitialsSpec |
| src/pages/AllNotes.jsx:50 | `setNotes(notes.filter(...))` filters the `notes` of the render whose delete button was clicked, not the list current when the reply arrives | confirm the delete of note A, then of note B before A's reply arrives; both replies are 204; the second update sets the clicked list without B, and A is shown again | each delete removes its note from the current list (`setNotes((prev) => prev.filter(...))`) | not executed | AllNotes.AllNotesPage.InterleavedDeletes | AllNotes.AllNotesPage.SequentialDeletes |
| src/pages/Dashboard.jsx:61 | the same stale-list update in the dashboard's `handleDelete` | two overlapping confirmed deletes on the dashboard, both answered 204: the first deleted note is shown again | each delete removes its note from the current list | not executed | Dashboard.DashboardPage.InterleavedDeletes | Dashboard.DashboardPage.SequentialDeletes |

The dashboard's render (`Dashboard.DashboardPage.View`) keeps the code as written and throws on such a name. The corrected `Dashboard.GetInitials` gives the intended result, and `Dashboard.AsWrittenAgrees` proves the two agree wherever the original does not throw.

The pages' `HandleDelete` methods keep the code as written: they take the list of the render that was clicked. `HandleDeleteCurrent` is the corrected handler. The deleted note only comes back on screen; the server has deleted it, and it stays away after the next fetch.
