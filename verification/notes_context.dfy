/**
 * The notes provider: an in-memory cache of the server's notes list, the note
 * currently open, and a loading flag. Every operation first awaits a server
 * call (given here as its `Reply`) and then updates the cache on success; on
 * failure the cache is left as it was and the error is handed back.
 */
module NotesContext {
  import opened Wrappers
  import opened Seqs

  /** A note as the server sends it. Content and tags may be missing. */
  datatype Note = Note(
    id: string,
    title: string,
    content: Option<string>,
    tags: Option<seq<string>>,
    isEncrypted: bool,
    isDraft: bool,
    isPublic: bool,
    publicShareId: Option<string>,
    createdAt: string,
    updatedAt: string,
    publishedAt: Option<string>,
    autoSavedAt: Option<string>)

  /** The paging block of a list response. */
  datatype Pagination = Pagination(page: int, limit: int, total: int, totalPages: int, hasNext: bool, hasPrev: bool)

  /** The body of a successful list request. */
  datatype NotesResponse = NotesResponse(notes: seq<Note>, pagination: Option<Pagination>)

  function NoteId(n: Note): string { n.id }

  /** The notes with `auto_saved_at` set to `stamp` on every note whose id is `id`. */
  function StampAutoSaved(notes: seq<Note>, id: string, stamp: string): (r: seq<Note>)
    ensures |r| == |notes|
  {
    if notes == [] then []
    else [if notes[0].id == id then notes[0].(autoSavedAt := Some(stamp)) else notes[0]]
         + StampAutoSaved(notes[1..], id, stamp)
  }

  /**
   * An autosave changes nothing but `auto_saved_at`, and that only on the
   * notes with the saved id; every note keeps its place.
   */
  lemma {:induction false} StampAutoSavedAt(notes: seq<Note>, id: string, stamp: string)
    ensures forall i :: 0 <= i < |notes| ==>
      && StampAutoSaved(notes, id, stamp)[i].(autoSavedAt := notes[i].autoSavedAt) == notes[i]
      && StampAutoSaved(notes, id, stamp)[i].autoSavedAt == if notes[i].id == id then Some(stamp) else notes[i].autoSavedAt
  {
    if notes != [] {
      StampAutoSavedAt(notes[1..], id, stamp);
    }
  }

  /** The body of an autosave request; a title that is None is left out of the body. */
  datatype AutoSaveBody = AutoSaveBody(content: string, title: Option<string>)

  /**
   * A note created and then deleted leaves the list as it was, provided no
   * cached note already carried the new note's id.
   */
  lemma CreateThenDeleteRestores(n: Note, notes: seq<Note>)
    requires forall i :: 0 <= i < |notes| ==> notes[i].id != n.id
    ensures RemoveWhere([n] + notes, NoteId, n.id) == notes
  {
    RemoveWhereCons(n, notes, NoteId, n.id);
    RemoveWhereAbsent(notes, NoteId, n.id);
  }

  class NotesStore {
    var notes: seq<Note>
    var currentNote: Option<Note>
    var loading: bool

    constructor ()
      ensures notes == [] && currentNote == None && !loading
    {
      notes := [];
      currentNote := None;
      loading := false;
    }

    /**
     * Replaces the cache wholesale with the listed notes. `loading` is false
     * afterwards on both outcomes; a failure is handed back.
     */
    method FetchNotes(reply: Reply<NotesResponse>) returns (r: Reply<NotesResponse>)
      modifies this
      ensures r == reply
      ensures notes == if reply.Ok? then reply.value.notes else old(notes)
      ensures currentNote == old(currentNote) && !loading
    {
      loading := true;
      if reply.Ok? {
        notes := reply.value.notes;
      }
      loading := false;
      r := reply;
    }

    /** Puts the created note in front of every cached note. */
    method CreateNote(reply: Reply<Note>) returns (r: Reply<Note>)
      modifies this`notes
      ensures r == reply
      ensures notes == if reply.Ok? then [reply.value] + old(notes) else old(notes)
    {
      if reply.Ok? {
        notes := [reply.value] + notes;
      }
      r := reply;
    }

    /**
     * Replaces every cached note with the id by the server's copy, and the
     * open note too when it has that id.
     */
    method UpdateNote(id: string, reply: Reply<Note>) returns (r: Reply<Note>)
      modifies this`notes, this`currentNote
      ensures r == reply
      ensures notes == if reply.Ok? then ReplaceWhere(old(notes), NoteId, id, reply.value) else old(notes)
      ensures currentNote ==
        if reply.Ok? && old(currentNote).Some? && old(currentNote).value.id == id
        then Some(reply.value) else old(currentNote)
    {
      if reply.Ok? {
        notes := ReplaceWhere(notes, NoteId, id, reply.value);
        if currentNote.Some? && currentNote.value.id == id {
          currentNote := Some(reply.value);
        }
      }
      r := reply;
    }

    /** Drops every cached note with the id; the open note is closed when it has that id. */
    method DeleteNote(id: string, reply: Reply<()>) returns (r: Reply<()>)
      modifies this`notes, this`currentNote
      ensures r == reply
      ensures notes == if reply.Ok? then RemoveWhere(old(notes), NoteId, id) else old(notes)
      ensures currentNote ==
        if reply.Ok? && old(currentNote).Some? && old(currentNote).value.id == id
        then None else old(currentNote)
    {
      if reply.Ok? {
        notes := RemoveWhere(notes, NoteId, id);
        if currentNote.Some? && currentNote.value.id == id {
          currentNote := None;
        }
      }
      r := reply;
    }

    /**
     * Sends the autosave payload and, on success, stamps the matching notes
     * with the time `listStamp` and then the open note with the later time
     * `openStamp` (the two clock readings the provider takes). A failure is
     * swallowed: it is only reported through `saved`, never raised.
     */
    method AutoSaveNote(id: string, content: string, title: Option<string>, reply: Reply<()>, listStamp: string, openStamp: string)
      returns (sent: AutoSaveBody, saved: bool)
      modifies this`notes, this`currentNote
      ensures sent.content == content && sent.title == title
      ensures saved == reply.Ok?
      ensures notes == if saved then StampAutoSaved(old(notes), id, listStamp) else old(notes)
      ensures currentNote ==
        if saved && old(currentNote).Some? && old(currentNote).value.id == id
        then Some(old(currentNote).value.(autoSavedAt := Some(openStamp))) else old(currentNote)
    {
      sent := AutoSaveBody(content, title);
      saved := reply.Ok?;
      if saved {
        notes := StampAutoSaved(notes, id, listStamp);
        if currentNote.Some? && currentNote.value.id == id {
          currentNote := Some(currentNote.value.(autoSavedAt := Some(openStamp)));
        }
      }
    }

    /** Opens (or closes, with None) a note. */
    method SetCurrentNote(note: Option<Note>)
      modifies this`currentNote
      ensures currentNote == note
    {
      currentNote := note;
    }
  }
}
