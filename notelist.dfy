/** The note list shared by the notes page and the dashboard: the note record, the owner
    filter, removal after a delete, the public/private counts, and the responses of the
    fetch and delete requests. */
module NoteList {
  import opened Wrappers
  import opened Seqs

  /** A note as the API returns it; `id` is the `_id` field, dates are timestamps. */
  datatype Note = Note(id: string, user: string, title: string, content: string,
                       isPublic: bool, createdAt: int, updatedAt: int)

  /** How `fetch(.../api/notes)` ended: a non-OK status, a network error and an unreadable
      body all throw into the same catch. */
  datatype FetchOutcome = FetchFailed | Fetched(data: seq<Note>)

  /** How the DELETE request ended: it threw, or it answered with a status code. */
  datatype DeleteOutcome = DeleteThrew | DeleteStatus(status: int)

  const LoadError := "Could not load notes."

  function OwnedBy(uid: Option<string>): Note -> bool
  {
    (n: Note) => uid == Some(n.user)
  }

  /** `notes.filter((note) => note.user === userId)`. */
  function Owned(notes: seq<Note>, uid: Option<string>): seq<Note>
  {
    Keep(notes, OwnedBy(uid))
  }

  /** The owned notes are exactly the notes whose `user` is the id, with every copy kept
      and the original order; without a user id nothing is owned. */
  lemma OwnedSpec(notes: seq<Note>, uid: Option<string>)
    ensures forall n :: n in Owned(notes, uid) <==> n in notes && uid == Some(n.user)
    ensures forall n: Note :: uid == Some(n.user) ==> multiset(Owned(notes, uid))[n] == multiset(notes)[n]
    ensures Subseq(Owned(notes, uid), notes)
    ensures uid == None ==> Owned(notes, uid) == []
  {
    KeepMembers(notes, OwnedBy(uid));
    KeepMultiset(notes, OwnedBy(uid));
    KeepSubseq(notes, OwnedBy(uid));
  }

  function NotId(id: string): Note -> bool
  {
    (n: Note) => n.id != id
  }

  /** `notes.filter((n) => n._id !== id)`. */
  function RemoveById(notes: seq<Note>, id: string): seq<Note>
  {
    Keep(notes, NotId(id))
  }

  /** Exactly the notes with that id go: every other note stays, each copy of it, in the
      original order. */
  lemma RemoveByIdSpec(notes: seq<Note>, id: string)
    ensures forall n :: n in RemoveById(notes, id) <==> n in notes && n.id != id
    ensures forall n: Note :: n.id != id ==> multiset(RemoveById(notes, id))[n] == multiset(notes)[n]
    ensures Subseq(RemoveById(notes, id), notes)
    ensures (forall n :: n in notes ==> n.id != id) ==> RemoveById(notes, id) == notes
  {
    KeepMembers(notes, NotId(id));
    KeepMultiset(notes, NotId(id));
    KeepSubseq(notes, NotId(id));
    if forall n :: n in notes ==> n.id != id {
      KeepAll(notes, NotId(id));
    }
  }

  /** Two deletes that both filter the list one render captured: the second reply's update
      brings back the note the first one removed. */
  lemma InterleavedDeletesLoseOne(rendered: seq<Note>, a: Note, b: Note)
    requires a in rendered && b in rendered && a.id != b.id
    ensures a !in RemoveById(rendered, a.id)
    ensures a in RemoveById(rendered, b.id) && b !in RemoveById(rendered, b.id)
  {
    RemoveByIdSpec(rendered, a.id);
    RemoveByIdSpec(rendered, b.id);
  }

  /** Removal by one id and then another does not depend on the order of the two. */
  lemma {:induction false} RemoveByIdCommutes(notes: seq<Note>, x: string, y: string)
    ensures RemoveById(RemoveById(notes, x), y) == RemoveById(RemoveById(notes, y), x)
  {
    if notes != [] {
      RemoveByIdCommutes(notes[1..], x, y);
      var n := notes[0];
      var tail := RemoveById(RemoveById(notes[1..], x), y);
      if n.id != x && n.id != y {
        assert RemoveById(RemoveById(notes, x), y) == [n] + tail by {
          assert RemoveById(notes, x) == [n] + RemoveById(notes[1..], x);
          assert ([n] + RemoveById(notes[1..], x))[1..] == RemoveById(notes[1..], x);
        }
        assert RemoveById(RemoveById(notes, y), x) == [n] + RemoveById(RemoveById(notes[1..], y), x) by {
          assert RemoveById(notes, y) == [n] + RemoveById(notes[1..], y);
          assert ([n] + RemoveById(notes[1..], y))[1..] == RemoveById(notes[1..], y);
        }
      } else if n.id == x {
        assert RemoveById(notes, x) == RemoveById(notes[1..], x);
        if n.id != y {
          assert RemoveById(notes, y) == [n] + RemoveById(notes[1..], y);
          assert ([n] + RemoveById(notes[1..], y))[1..] == RemoveById(notes[1..], y);
        } else {
          assert RemoveById(notes, y) == RemoveById(notes[1..], y);
        }
      } else {
        assert RemoveById(notes, y) == RemoveById(notes[1..], y);
        assert RemoveById(notes, x) == [n] + RemoveById(notes[1..], x);
        assert ([n] + RemoveById(notes[1..], x))[1..] == RemoveById(notes[1..], x);
      }
    }
  }

  /** Deletes applied one after the other to the current list remove the notes of both ids,
      keep every other note, and give the same list whichever reply arrives first. */
  lemma SequentialDeletesRemoveBoth(notes: seq<Note>, x: string, y: string)
    ensures forall n :: n in RemoveById(RemoveById(notes, x), y) <==> n in notes && n.id != x && n.id != y
    ensures RemoveById(RemoveById(notes, x), y) == RemoveById(RemoveById(notes, y), x)
  {
    RemoveByIdSpec(notes, x);
    RemoveByIdSpec(RemoveById(notes, x), y);
    RemoveByIdCommutes(notes, x, y);
  }

  function IsPublic(n: Note): bool { n.isPublic }

  function IsPrivate(n: Note): bool { !n.isPublic }

  datatype Stats = Stats(total: nat, publicNotes: nat, privateNotes: nat)

  /** The stats cards: `notes.length`, `notes.filter(n => n.isPublic).length` and
      `notes.filter(n => !n.isPublic).length`. */
  function CountStats(notes: seq<Note>): (st: Stats)
    ensures st.total == |notes|
    ensures st.publicNotes + st.privateNotes == st.total
    ensures st.publicNotes == st.total <==> forall i :: 0 <= i < |notes| ==> notes[i].isPublic
    ensures st.privateNotes == st.total <==> forall i :: 0 <= i < |notes| ==> !notes[i].isPublic
    ensures st.publicNotes == |set i | 0 <= i < |notes| && notes[i].isPublic|
    ensures st.privateNotes == |set i | 0 <= i < |notes| && !notes[i].isPublic|
  {
    KeepComplement(notes, IsPublic, IsPrivate);
    KeepLength(notes, IsPublic);
    KeepLength(notes, IsPrivate);
    KeepCount(notes, IsPublic);
    KeepCount(notes, IsPrivate);
    assert Positions(notes, IsPublic) == set i | 0 <= i < |notes| && notes[i].isPublic;
    assert Positions(notes, IsPrivate) == set i | 0 <= i < |notes| && !notes[i].isPublic;
    Stats(|notes|, |Keep(notes, IsPublic)|, |Keep(notes, IsPrivate)|)
  }
}
