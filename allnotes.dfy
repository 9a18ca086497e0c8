/** The "My Notes" page: the owner filter, the search and visibility filters, the four sort
    orders and the page's state updates. */
module AllNotes {
  import opened Wrappers
  import opened Seqs
  import opened Text
  import opened NoteList
  import Session
  import Browser

  /** `note.title.toLowerCase().includes(term.toLowerCase()) || note.content...`. */
  predicate MatchesSearch(n: Note, term: string)
  {
    Includes(Lower(n.title), Lower(term)) || Includes(Lower(n.content), Lower(term))
  }

  /** The visibility filter; a filter value other than the three options matches nothing. */
  predicate MatchesFilter(n: Note, filter: string)
  {
    filter == "all" || (filter == "public" && n.isPublic) || (filter == "private" && !n.isPublic)
  }

  function Matches(term: string, filter: string): Note -> bool
  {
    n => MatchesSearch(n, term) && MatchesFilter(n, filter)
  }

  /** `filteredNotes`. */
  function FilterNotes(notes: seq<Note>, term: string, filter: string): seq<Note>
  {
    Keep(notes, Matches(term, filter))
  }

  /** A note matches the search exactly when the lower-cased term occurs in its lower-cased
      title or content; the empty term matches every note. */
  lemma MatchesSearchIff(n: Note, term: string)
    ensures MatchesSearch(n, term) <==> (exists i :: OccursAt(Lower(n.title), Lower(term), i))
                                        || (exists i :: OccursAt(Lower(n.content), Lower(term), i))
    ensures term == "" ==> MatchesSearch(n, term)
  {
    IncludesIff(Lower(n.title), Lower(term));
    IncludesIff(Lower(n.content), Lower(term));
  }

  /** A note is kept iff it matches the search and the visibility filter; the order is kept;
      no search with filter "all" keeps every note; an unknown filter keeps none. */
  lemma FilterNotesSpec(notes: seq<Note>, term: string, filter: string)
    ensures forall n :: (n in FilterNotes(notes, term, filter))
                        <==> (n in notes && MatchesSearch(n, term) && MatchesFilter(n, filter))
    ensures Subseq(FilterNotes(notes, term, filter), notes)
    ensures |FilterNotes(notes, term, filter)| <= |notes|
    ensures term == "" && filter == "all" ==> FilterNotes(notes, term, filter) == notes
    ensures filter != "all" && filter != "public" && filter != "private" ==> FilterNotes(notes, term, filter) == []
  {
    KeepMembers(notes, Matches(term, filter));
    KeepSubseq(notes, Matches(term, filter));
    if term == "" && filter == "all" {
      forall i | 0 <= i < |notes| ensures Matches(term, filter)(notes[i]) {
        MatchesSearchIff(notes[i], term);
      }
      KeepAll(notes, Matches(term, filter));
    }
    if filter != "all" && filter != "public" && filter != "private" {
      if FilterNotes(notes, term, filter) != [] {
        assert FilterNotes(notes, term, filter)[0] in FilterNotes(notes, term, filter);
      }
    }
  }

  datatype TimeField = CreatedAt | UpdatedAt

  /** A sort order: the timestamp compared, and whether later timestamps come first. */
  datatype Order = Order(field: TimeField, newestFirst: bool)

  function Stamp(n: Note, f: TimeField): int
  {
    match f
    case CreatedAt => n.createdAt
    case UpdatedAt => n.updatedAt
  }

  /** The four `sortBy` options; any other value leaves the list as it is. */
  function SortOrder(sortBy: string): Option<Order>
  {
    if sortBy == "newest" then Some(Order(CreatedAt, true))
    else if sortBy == "oldest" then Some(Order(CreatedAt, false))
    else if sortBy == "recently-updated" then Some(Order(UpdatedAt, true))
    else if sortBy == "oldest-updated" then Some(Order(UpdatedAt, false))
    else None
  }

  /** `a` may come before `b`: the comparator does not return a positive number. */
  predicate InOrder(o: Order, a: Note, b: Note)
  {
    if o.newestFirst then Stamp(a, o.field) >= Stamp(b, o.field) else Stamp(a, o.field) <= Stamp(b, o.field)
  }

  ghost predicate Sorted(o: Order, s: seq<Note>)
  {
    forall i, j :: 0 <= i < j < |s| ==> InOrder(o, s[i], s[j])
  }

  /** Inserts `x` before the first element it may precede. */
  function Insert(o: Order, x: Note, s: seq<Note>): seq<Note>
  {
    if s == [] || InOrder(o, x, s[0]) then [x] + s else [s[0]] + Insert(o, x, s[1..])
  }

  /** A stable sort by the comparator, as `Array.prototype.sort` is. */
  function InsertionSort(o: Order, s: seq<Note>): seq<Note>
  {
    if s == [] then [] else Insert(o, s[0], InsertionSort(o, s[1..]))
  }

  /** `sortNotes`: sorts a copy, so the page's list itself is never reordered. */
  function SortNotes(sortBy: string, notes: seq<Note>): seq<Note>
  {
    match SortOrder(sortBy)
    case None => notes
    case Some(o) => InsertionSort(o, notes)
  }

  lemma {:induction false} InsertSpec(o: Order, x: Note, s: seq<Note>)
    requires Sorted(o, s)
    ensures Sorted(o, Insert(o, x, s))
    ensures multiset(Insert(o, x, s)) == multiset(s) + multiset{x}
  {
    if s != [] && !InOrder(o, x, s[0]) {
      InsertSpec(o, x, s[1..]);
      var r := Insert(o, x, s[1..]);
      assert s == [s[0]] + s[1..];
      forall k | 0 <= k < |r| ensures InOrder(o, s[0], r[k]) {
        assert r[k] in multiset(s[1..]) + multiset{x};
      }
    }
  }

  lemma {:induction false} InsertionSortSpec(o: Order, s: seq<Note>)
    ensures Sorted(o, InsertionSort(o, s))
    ensures multiset(InsertionSort(o, s)) == multiset(s)
  {
    if s != [] {
      InsertionSortSpec(o, s[1..]);
      InsertSpec(o, s[0], InsertionSort(o, s[1..]));
      assert s == [s[0]] + s[1..];
    }
  }

  function AtStamp(f: TimeField, k: int): Note -> bool
  {
    n => Stamp(n, f) == k
  }

  lemma {:induction false} InsertStable(o: Order, x: Note, s: seq<Note>, k: int)
    requires Sorted(o, s)
    ensures Keep(Insert(o, x, s), AtStamp(o.field, k))
            == (if Stamp(x, o.field) == k then [x] else []) + Keep(s, AtStamp(o.field, k))
  {
    var p := AtStamp(o.field, k);
    if s == [] || InOrder(o, x, s[0]) {
      assert ([x] + s)[1..] == s;
    } else {
      InsertStable(o, x, s[1..], k);
      assert ([s[0]] + Insert(o, x, s[1..]))[1..] == Insert(o, x, s[1..]);
    }
  }

  lemma {:induction false} InsertionSortStable(o: Order, s: seq<Note>, k: int)
    ensures Keep(InsertionSort(o, s), AtStamp(o.field, k)) == Keep(s, AtStamp(o.field, k))
  {
    if s != [] {
      InsertionSortStable(o, s[1..], k);
      InsertionSortSpec(o, s[1..]);
      InsertStable(o, s[0], InsertionSort(o, s[1..]), k);
    }
  }

  /** `sortNotes` returns a permutation of its input, ordered as the option says: "newest"
      and "recently-updated" put later timestamps first, "oldest" and "oldest-updated" earlier
      ones; any other option returns the list unchanged. */
  lemma SortNotesSpec(sortBy: string, notes: seq<Note>)
    ensures multiset(SortNotes(sortBy, notes)) == multiset(notes)
    ensures |SortNotes(sortBy, notes)| == |notes|
    ensures var r := SortNotes(sortBy, notes);
            sortBy == "newest" ==> forall i, j :: 0 <= i < j < |r| ==> r[i].createdAt >= r[j].createdAt
    ensures var r := SortNotes(sortBy, notes);
            sortBy == "oldest" ==> forall i, j :: 0 <= i < j < |r| ==> r[i].createdAt <= r[j].createdAt
    ensures var r := SortNotes(sortBy, notes);
            sortBy == "recently-updated" ==> forall i, j :: 0 <= i < j < |r| ==> r[i].updatedAt >= r[j].updatedAt
    ensures var r := SortNotes(sortBy, notes);
            sortBy == "oldest-updated" ==> forall i, j :: 0 <= i < j < |r| ==> r[i].updatedAt <= r[j].updatedAt
    ensures SortOrder(sortBy) == None ==> SortNotes(sortBy, notes) == notes
  {
    match SortOrder(sortBy) {
      case None =>
      case Some(o) =>
        InsertionSortSpec(o, notes);
        assert |multiset(SortNotes(sortBy, notes))| == |multiset(notes)|;
    }
  }

  /** The sort is stable: the notes sharing a timestamp keep their relative order. */
  lemma SortNotesStable(sortBy: string, notes: seq<Note>, k: int)
    requires SortOrder(sortBy).Some?
    ensures var f := SortOrder(sortBy).value.field;
            Keep(SortNotes(sortBy, notes), AtStamp(f, k)) == Keep(notes, AtStamp(f, k))
  {
    InsertionSortStable(SortOrder(sortBy).value, notes, k);
  }

  /** `sortedAndFilteredNotes`. */
  function Visible(notes: seq<Note>, uid: Option<string>, term: string, filter: string, sortBy: string): seq<Note>
  {
    SortNotes(sortBy, FilterNotes(Owned(notes, uid), term, filter))
  }

  /** The list shown holds the owned notes that match, each as often as it is owned, in the
      order the sort option asks for, so "Showing X of Y notes" never has X above Y. */
  lemma VisibleSpec(notes: seq<Note>, uid: Option<string>, term: string, filter: string, sortBy: string)
    ensures multiset(Visible(notes, uid, term, filter, sortBy)) == multiset(FilterNotes(Owned(notes, uid), term, filter))
    ensures SortOrder(sortBy).Some? ==> Sorted(SortOrder(sortBy).value, Visible(notes, uid, term, filter, sortBy))
    ensures SortOrder(sortBy).None? ==> Visible(notes, uid, term, filter, sortBy) == FilterNotes(Owned(notes, uid), term, filter)
    ensures |Visible(notes, uid, term, filter, sortBy)| <= |Owned(notes, uid)|
    ensures forall n :: (n in Visible(notes, uid, term, filter, sortBy))
                        <==> (n in notes && uid == Some(n.user) && MatchesSearch(n, term) && MatchesFilter(n, filter))
  {
    var mine := Owned(notes, uid);
    OwnedSpec(notes, uid);
    FilterNotesSpec(mine, term, filter);
    var shown := FilterNotes(mine, term, filter);
    SortNotesSpec(sortBy, shown);
    if SortOrder(sortBy).Some? {
      InsertionSortSpec(SortOrder(sortBy).value, shown);
    }
    forall n ensures n in Visible(notes, uid, term, filter, sortBy) <==> n in shown {
      assert n in Visible(notes, uid, term, filter, sortBy) <==> n in multiset(Visible(notes, uid, term, filter, sortBy));
    }
  }

  /** What the page renders from its state: the shown list, the owned count and the stats. */
  datatype PageView = PageView(shown: seq<Note>, owned: nat, stats: Stats)

  class AllNotesPage {
    const window: Browser.Window
    var notes: seq<Note>
    var loading: bool
    var error: string
    var searchTerm: string
    var filter: string
    var sortBy: string

    constructor (w: Browser.Window)
      ensures window == w
      ensures notes == [] && loading && error == ""
      ensures searchTerm == "" && filter == "all" && sortBy == "newest"
    {
      window := w;
      notes, loading, error := [], true, "";
      searchTerm, filter, sortBy := "", "all", "newest";
    }

    /** `fetchNotes`: on success the list is replaced; on failure it is kept and the error set. */
    method FetchNotes(outcome: FetchOutcome)
      modifies this`notes, this`loading, this`error
      ensures !loading
      ensures outcome.Fetched? ==> notes == outcome.data && error == ""
      ensures outcome.FetchFailed? ==> notes == old(notes) && error == LoadError
    {
      loading := true;
      error := "";
      match outcome {
        case Fetched(data) => notes := data;
        case FetchFailed => error := LoadError;
      }
      loading := false;
    }

    /** `handleDelete`, as written: the handler closes over `rendered`, the list of the render
        whose button was clicked, and only a confirmed delete answered with 204 sets the list,
        to `rendered` without the notes of that id. */
    method HandleDelete(rendered: seq<Note>, id: string, confirmed: bool, outcome: DeleteOutcome)
      modifies this`notes
      ensures notes == if confirmed && outcome == DeleteStatus(204) then RemoveById(rendered, id) else old(notes)
    {
      if !confirmed {
        return;
      }
      match outcome {
        case DeleteStatus(status) =>
          if status == 204 {
            notes := RemoveById(rendered, id);
          }
        case DeleteThrew =>
      }
    }

    /** Two deletes started from the same render, whose replies both arrive with 204: the note
        deleted first is back in the list. */
    method InterleavedDeletes(a: Note, b: Note)
      requires a in notes && b in notes && a.id != b.id
      modifies this`notes
      ensures a in notes && b !in notes
    {
      var rendered := notes;
      HandleDelete(rendered, a.id, true, DeleteStatus(204));
      HandleDelete(rendered, b.id, true, DeleteStatus(204));
      InterleavedDeletesLoseOne(rendered, a, b);
    }

    /** `handleDelete` with the update applied to the current list
        (`setNotes((prev) => prev.filter(...))`). */
    method HandleDeleteCurrent(id: string, confirmed: bool, outcome: DeleteOutcome)
      modifies this`notes
      ensures notes == if confirmed && outcome == DeleteStatus(204) then RemoveById(old(notes), id) else old(notes)
    {
      if confirmed && outcome == DeleteStatus(204) {
        notes := RemoveById(notes, id);
      }
    }

    /** With the corrected handler two overlapping deletes remove both notes, in either order
        of the replies. */
    method SequentialDeletes(x: string, y: string)
      modifies this`notes
      ensures forall n :: n in notes <==> n in old(notes) && n.id != x && n.id != y
      ensures notes == RemoveById(RemoveById(old(notes), y), x)
    {
      HandleDeleteCurrent(x, true, DeleteStatus(204));
      HandleDeleteCurrent(y, true, DeleteStatus(204));
      SequentialDeletesRemoveBoth(old(notes), x, y);
    }


    method SetSearchTerm(term: string)
      modifies this`searchTerm
      ensures searchTerm == term
    {
      searchTerm := term;
    }

    method SetFilter(value: string)
      modifies this`filter
      ensures filter == value
    {
      filter := value;
    }

    method SetSortBy(value: string)
      modifies this`sortBy
      ensures sortBy == value
    {
      sortBy := value;
    }

    /** The render: reading the user id throws when the stored user is malformed. */
    function View(): (r: Result<PageView>)
      reads this, window
      ensures r.Ok? <==> Session.UserId(window.localStorage).Ok?
      ensures r.Ok? ==> |r.value.shown| <= r.value.owned
      ensures r.Ok? ==> var uid := Session.UserId(window.localStorage).value;
                        forall n :: (n in r.value.shown)
                                    <==> (n in notes && uid == Some(n.user) && MatchesSearch(n, searchTerm)
                                          && MatchesFilter(n, filter))
      ensures r.Ok? ==> var uid := Session.UserId(window.localStorage).value;
                        multiset(r.value.shown) == multiset(FilterNotes(Owned(notes, uid), searchTerm, filter))
      ensures r.Ok? && SortOrder(sortBy).Some? ==> Sorted(SortOrder(sortBy).value, r.value.shown)
      ensures r.Ok? ==> var uid := Session.UserId(window.localStorage).value;
                        && r.value.shown == Visible(notes, uid, searchTerm, filter, sortBy)
                        && r.value.owned == |Owned(notes, uid)|
                        && r.value.stats == CountStats(Owned(notes, uid))
      ensures r.Ok? ==> r.value.stats.total == r.value.owned
                        && r.value.stats.publicNotes + r.value.stats.privateNotes == r.value.owned
    {
      match Session.UserId(window.localStorage)
      case Err(e) => Err(e)
      case Ok(uid) =>
        var mine := Owned(notes, uid);
        VisibleSpec(notes, uid, searchTerm, filter, sortBy);
        Ok(PageView(Visible(notes, uid, searchTerm, filter, sortBy), |mine|, CountStats(mine)))
    }
  }
}
