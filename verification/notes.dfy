/**
 * The sticky-notes store: a list of notes that `addNote`, `updateNote` and
 * `deleteNote` replace with a new list built by spread, map and filter.
 */
module Notes {
  import opened Wrappers
  import opened Seqs

  /** A note's position on the board, in pixels (JavaScript numbers). */
  datatype Position = Position(x: real, y: real)

  /** Note; `createdAt` is the creation time in milliseconds since the epoch. */
  datatype Note = Note(id: string, content: string, color: string, position: Position, createdAt: int)

  /** Partial<Note>: each field either present (Some) or absent (None). */
  datatype NoteUpdate = NoteUpdate(
    id: Option<string>,
    content: Option<string>,
    color: Option<string>,
    position: Option<Position>,
    createdAt: Option<int>)

  /** The empty update `{}`. */
  const NoChange := NoteUpdate(None, None, None, None, None)

  /**
   * `{ ...note, ...updates }`: every field present in the update
   * overwrites the note's, every absent one keeps the note's value.
   */
  function Merge(note: Note, u: NoteUpdate): (r: Note)
    ensures u.id.Some? ==> r.id == u.id.value
    ensures u.id.None? ==> r.id == note.id
    ensures u.content.Some? ==> r.content == u.content.value
    ensures u.content.None? ==> r.content == note.content
    ensures u.color.Some? ==> r.color == u.color.value
    ensures u.color.None? ==> r.color == note.color
    ensures u.position.Some? ==> r.position == u.position.value
    ensures u.position.None? ==> r.position == note.position
    ensures u.createdAt.Some? ==> r.createdAt == u.createdAt.value
    ensures u.createdAt.None? ==> r.createdAt == note.createdAt
  {
    Note(
      u.id.GetOr(note.id),
      u.content.GetOr(note.content),
      u.color.GetOr(note.color),
      u.position.GetOr(note.position),
      u.createdAt.GetOr(note.createdAt))
  }

  /** `{ ...first, ...second }` on two updates: the later one wins where both are present. */
  function Then(first: NoteUpdate, second: NoteUpdate): NoteUpdate {
    NoteUpdate(
      if second.id.Some? then second.id else first.id,
      if second.content.Some? then second.content else first.content,
      if second.color.Some? then second.color else first.color,
      if second.position.Some? then second.position else first.position,
      if second.createdAt.Some? then second.createdAt else first.createdAt)
  }

  /** Merging the empty update is the identity. */
  lemma {:induction false} MergeNoChange(note: Note)
    ensures Merge(note, NoChange) == note
  {
  }

  /** Merging the same update twice is merging it once. */
  lemma {:induction false} MergeIdempotent(note: Note, u: NoteUpdate)
    ensures Merge(Merge(note, u), u) == Merge(note, u)
  {
  }

  /** Two successive merges are one merge of the combined update. */
  lemma {:induction false} MergeThen(note: Note, first: NoteUpdate, second: NoteUpdate)
    ensures Merge(Merge(note, first), second) == Merge(note, Then(first, second))
  {
  }

  /** The callback of updateNote's map: merge into the note with that id, keep the others. */
  function MergeInto(id: string, u: NoteUpdate): Note -> Note {
    (note: Note) => if note.id == id then Merge(note, u) else note
  }

  /** The callback of deleteNote's filter: keep the notes whose id differs. */
  function KeepOther(id: string): Note -> bool {
    (note: Note) => note.id != id
  }

  /**
   * The list updateNote builds: same length and order, the notes with that
   * id merged with the update, every other note unchanged.
   */
  function UpdateNotes(notes: seq<Note>, id: string, u: NoteUpdate): (r: seq<Note>)
    ensures |r| == |notes|
    ensures forall i :: 0 <= i < |notes| && notes[i].id == id ==> r[i] == Merge(notes[i], u)
    ensures forall i :: 0 <= i < |notes| && notes[i].id != id ==> r[i] == notes[i]
  {
    Map(notes, MergeInto(id, u))
  }

  /**
   * The list deleteNote builds: no note with that id is left, every other
   * note is kept as often as it occurred, and the order is kept.
   */
  function RemoveNotes(notes: seq<Note>, id: string): (r: seq<Note>)
    ensures forall n :: n in r ==> n in notes && n.id != id
    ensures forall n :: n in notes && n.id != id ==> n in r
    ensures forall n | n in notes :: multiset(r)[n] == if n.id == id then 0 else multiset(notes)[n]
    ensures IsSubseq(r, notes)
  {
    FilterIsSubseq(notes, KeepOther(id));
    Filter(notes, KeepOther(id))
  }

  /** Updating an id that no note has leaves the list unchanged. */
  lemma {:induction false} UpdateAbsent(notes: seq<Note>, id: string, u: NoteUpdate)
    requires forall n :: n in notes ==> n.id != id
    ensures UpdateNotes(notes, id, u) == notes
  {
    var r := UpdateNotes(notes, id, u);
    assert forall i :: 0 <= i < |notes| ==> r[i] == notes[i];
  }

  /** The empty update leaves the list unchanged. */
  lemma {:induction false} UpdateNoChange(notes: seq<Note>, id: string)
    ensures UpdateNotes(notes, id, NoChange) == notes
  {
    var r := UpdateNotes(notes, id, NoChange);
    forall i | 0 <= i < |notes| ensures r[i] == notes[i] {
      MergeNoChange(notes[i]);
    }
  }

  /** Deleting the same id twice is deleting it once. */
  lemma {:induction false} RemoveIdempotent(notes: seq<Note>, id: string)
    ensures RemoveNotes(RemoveNotes(notes, id), id) == RemoveNotes(notes, id)
  {
    FilterIdempotent(notes, KeepOther(id));
  }

  /** Deleting an id that no note has leaves the list unchanged. */
  lemma {:induction false} RemoveAbsent(notes: seq<Note>, id: string)
    requires forall n :: n in notes ==> n.id != id
    ensures RemoveNotes(notes, id) == notes
  {
    FilterAll(notes, KeepOther(id));
  }

  /** NotesProvider's state: the `notes` list. */
  class NotesStore {
    var notes: seq<Note>

    /** Starts from the list loaded from storage (or the empty list). */
    constructor (initial: seq<Note>)
      ensures notes == initial
    {
      notes := initial;
    }

    /**
     * addNote: appends one note with the given content, colour and
     * position; `id` (crypto.randomUUID) and `now` (new Date) are supplied
     * by the caller.
     */
    method AddNote(id: string, content: string, color: string, position: Position, now: int)
      modifies this
      ensures notes == old(notes) + [Note(id, content, color, position, now)]
    {
      var newNote := Note(id, content, color, position, now);
      notes := notes + [newNote];
    }

    /** updateNote: merges `updates` into every note with that id. */
    method UpdateNote(id: string, updates: NoteUpdate)
      modifies this
      ensures notes == UpdateNotes(old(notes), id, updates)
    {
      notes := Map(notes, MergeInto(id, updates));
    }

    /** deleteNote: drops every note with that id. */
    method DeleteNote(id: string)
      modifies this
      ensures notes == RemoveNotes(old(notes), id)
    {
      notes := Filter(notes, KeepOther(id));
    }
  }
}
