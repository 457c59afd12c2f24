/**
 * The note editor: the form state of one note (title, content, tags and the
 * three flags), saving it through the notes provider, and debounced
 * autosave while an existing note is edited.
 */
module NoteEditor {
  import opened Wrappers
  import opened Seqs
  import opened Text
  import opened NotesContext

  /** The body of a save request. */
  datatype NotePayload = NotePayload(
    title: string,
    content: string,
    tags: seq<string>,
    isEncrypted: bool,
    isPublic: bool,
    isDraft: bool)

  /** The server call a save makes. */
  datatype SaveRequest = CreateRequest(payload: NotePayload) | UpdateRequest(id: string, payload: NotePayload)

  /** The arguments of one debounced autosave call. */
  datatype AutoSaveCall = AutoSaveCall(noteId: string, content: string, title: string)

  /** The tag list together with the text of the tag input box. */
  datatype TagBox = TagBox(tags: seq<string>, input: string)

  /** The route names an existing note (`!!id`). */
  predicate IsEditing(id: Option<string>) {
    id.Some? && id.value != ""
  }

  // ---------------------------------------------------------------------------
  // tags

  function TagKey(t: string): string { t }

  /**
   * `handleAddTag`: the trimmed input is appended when it is non-empty and not
   * yet a tag, and only then is the input cleared; otherwise nothing changes.
   */
  function AddTag(box: TagBox): (r: TagBox)
    ensures r == box || (r.tags == box.tags + [Trim(box.input)] && r.input == "")
    ensures |r.tags| == |box.tags| + 1 <==> Trim(box.input) != "" && Trim(box.input) !in box.tags
    ensures NoDup(box.tags) ==> NoDup(r.tags)
    ensures forall t :: t in r.tags ==> t in box.tags || t == Trim(box.input)
  {
    var tag := Trim(box.input);
    if tag != "" && tag !in box.tags then
      assert NoDup(box.tags) ==> NoDup(box.tags + [tag]) by {
        if NoDup(box.tags) { AppendFreshNoDup(box.tags, tag); }
      }
      TagBox(box.tags + [tag], "")
    else box
  }

  /**
   * `handleRemoveTag`: every tag equal to `tag` goes; every other tag stays,
   * as often as it occurred, and the tags keep their order.
   */
  function RemoveTag(tags: seq<string>, tag: string): (r: seq<string>)
    ensures tag !in r
    ensures IsSubsequence(r, tags)
    ensures forall t :: t in r <==> t in tags && t != tag
    ensures forall t :: t != tag ==> multiset(r)[t] == multiset(tags)[t]
    ensures NoDup(tags) ==> NoDup(r)
  {
    RemoveWhereSpec(tags, TagKey, tag);
    RemoveWhereNoDupIf(tags, tag);
    forall t | t in tags && t != tag ensures t in RemoveWhere(tags, TagKey, tag) {
      assert multiset(RemoveWhere(tags, TagKey, tag))[t] == multiset(tags)[t];
    }
    RemoveWhere(tags, TagKey, tag)
  }

  lemma RemoveWhereNoDupIf(tags: seq<string>, tag: string)
    ensures NoDup(tags) ==> NoDup(RemoveWhere(tags, TagKey, tag))
  {
    if NoDup(tags) { RemoveWhereNoDup(tags, TagKey, tag); }
  }

  /** Removing the tag just added gives the tag list back. */
  lemma {:induction false} AddThenRemoveTag(box: TagBox)
    requires Trim(box.input) != "" && Trim(box.input) !in box.tags
    ensures RemoveTag(AddTag(box).tags, Trim(box.input)) == box.tags
  {
    var tag := Trim(box.input);
    RemoveWhereAppendOne(box.tags, tag, TagKey, tag);
    RemoveWhereAbsent(box.tags, TagKey, tag);
  }

  // ---------------------------------------------------------------------------
  // saving

  /**
   * The save payload, or None when the title is blank after trimming (the save
   * then stops before any server call). Publishing always sends a non-draft.
   */
  function BuildPayload(title: string, content: string, tags: seq<string>,
                        isEncrypted: bool, isPublic: bool, isDraft: bool, publishNow: bool): (r: Option<NotePayload>)
    ensures r.None? <==> AllSpace(title)
    ensures r.Some? ==> r.value.title == Trim(title) && r.value.title != ""
    ensures r.Some? ==> r.value.content == content && r.value.tags == tags
    ensures r.Some? ==> r.value.isEncrypted == isEncrypted && r.value.isPublic == isPublic
    ensures r.Some? ==> (r.value.isDraft <==> isDraft && !publishNow)
  {
    var t := Trim(title);
    if t == "" then None
    else Some(NotePayload(t, content, tags, isEncrypted, isPublic, if publishNow then false else isDraft))
  }

  /** Editing an existing note updates it; anything else creates a note. */
  function RequestFor(id: Option<string>, payload: NotePayload): (r: SaveRequest)
    ensures r.payload == payload
    ensures r.UpdateRequest? <==> IsEditing(id)
    ensures r.UpdateRequest? ==> r.id == id.value
  {
    if IsEditing(id) then UpdateRequest(id.value, payload) else CreateRequest(payload)
  }

  /** The route of a created note's editor. */
  function EditRoute(noteId: string): string {
    "/notes/" + noteId + "/edit"
  }

  // ---------------------------------------------------------------------------
  // autosave

  /** Autosave is asked for only while editing an existing note with some title or content. */
  predicate ShouldAutoSave(id: Option<string>, content: string, title: string) {
    IsEditing(id) && (content != "" || title != "")
  }

  /**
   * The status shown after an autosave as the editor is written: the provider
   * swallows every failure, so the editor's failure branch never runs.
   */
  function AutoSaveStatusAsWritten(saved: bool): (status: string)
    ensures status == "Auto-saved"
  {
    "Auto-saved"
  }

  /** A failed autosave is reported as saved by the code as written. */
  lemma FailedAutoSaveShownAsSaved()
    ensures AutoSaveStatusAsWritten(false) == "Auto-saved" != AutoSaveStatus(false)
  {
  }

  /** The status the editor evidently means to show: saved exactly when the server accepted the autosave. */
  function AutoSaveStatus(saved: bool): (status: string)
    ensures status == "Auto-saved" <==> saved
    ensures !saved ==> status == "Save failed"
  {
    if saved then "Auto-saved" else "Save failed"
  }

  // ---------------------------------------------------------------------------
  // debounce

  /**
   * `debounce`: at most one call is pending; a new call cancels the pending
   * one, so only the latest arguments are delivered when the wait runs out.
   */
  class Debouncer<A> {
    var pending: Option<A>

    constructor ()
      ensures pending == None
    {
      pending := None;
    }

    /** clearTimeout, then schedule these arguments. */
    method Call(args: A)
      modifies this
      ensures pending == Some(args)
    {
      pending := Some(args);
    }

    /** The wait runs out: the pending arguments, if any, are delivered and the slot empties. */
    method Elapse() returns (delivered: Option<A>)
      modifies this
      ensures delivered == old(pending) && pending == None
    {
      delivered := pending;
      pending := None;
    }
  }

  // ---------------------------------------------------------------------------
  // the editor component

  class Editor {
    const id: Option<string>
    var title: string
    var content: string
    var tags: seq<string>
    var tagInput: string
    var isEncrypted: bool
    var isPublic: bool
    var isDraft: bool
    var loading: bool
    var saving: bool
    var status: string
    const autoSaver: Debouncer<AutoSaveCall>

    /** A fresh editor for the route's id: empty fields, kept as a draft. */
    constructor (id: Option<string>)
      ensures this.id == id && title == "" && content == "" && tags == [] && tagInput == ""
      ensures !isEncrypted && !isPublic && isDraft && !loading && !saving && status == ""
      ensures fresh(autoSaver) && autoSaver.pending == None
    {
      this.id := id;
      title, content, tags, tagInput := "", "", [], "";
      isEncrypted, isPublic, isDraft := false, false, true;
      loading, saving, status := false, false, "";
      autoSaver := new Debouncer();
    }

    /**
     * `loadNote`: copies the fetched note into the form, with missing content
     * read as "" and missing tags as []. A failure alerts and goes back to the
     * list. Without an id nothing happens.
     */
    method LoadNote(reply: Reply<Note>) returns (alert: Option<string>, navigateTo: Option<string>)
      modifies this`title, this`content, this`tags, this`isEncrypted, this`isPublic, this`isDraft, this`loading
      ensures !IsEditing(id) ==> unchanged(this) && alert == None && navigateTo == None
      ensures IsEditing(id) && reply.Ok? ==>
        && title == reply.value.title
        && content == reply.value.content.GetOr("")
        && tags == reply.value.tags.GetOr([])
        && isEncrypted == reply.value.isEncrypted && isPublic == reply.value.isPublic && isDraft == reply.value.isDraft
        && alert == None && navigateTo == None && !loading
      ensures IsEditing(id) && reply.Fail? ==>
        && title == old(title) && content == old(content) && tags == old(tags)
        && isEncrypted == old(isEncrypted) && isPublic == old(isPublic) && isDraft == old(isDraft)
        && alert == Some("Failed to load note") && navigateTo == Some("/notes") && !loading
    {
      alert, navigateTo := None, None;
      if !IsEditing(id) {
        return;
      }
      loading := true;
      if reply.Ok? {
        var note := reply.value;
        title := note.title;
        content := note.content.GetOr("");
        tags := note.tags.GetOr([]);
        isEncrypted, isPublic, isDraft := note.isEncrypted, note.isPublic, note.isDraft;
      } else {
        alert, navigateTo := Some("Failed to load note"), Some("/notes");
      }
      loading := false;
    }

    /** `handleAddTag`, specified by AddTag. */
    method HandleAddTag()
      modifies this`tags, this`tagInput
      ensures TagBox(tags, tagInput) == AddTag(TagBox(old(tags), old(tagInput)))
    {
      var box := AddTag(TagBox(tags, tagInput));
      tags, tagInput := box.tags, box.input;
    }

    /** `handleRemoveTag`, specified by RemoveTag. */
    method HandleRemoveTag(tag: string)
      modifies this`tags
      ensures tags == RemoveTag(old(tags), tag)
    {
      tags := RemoveTag(tags, tag);
    }

    /**
     * The user types into the title and content boxes; the change effect then
     * hands the autosave to the debouncer when ShouldAutoSave holds.
     */
    method EditText(newTitle: string, newContent: string)
      modifies this`title, this`content, autoSaver
      ensures title == newTitle && content == newContent
      ensures autoSaver.pending ==
        if ShouldAutoSave(id, newContent, newTitle) then Some(AutoSaveCall(id.value, newContent, newTitle))
        else old(autoSaver.pending)
    {
      title, content := newTitle, newContent;
      if ShouldAutoSave(id, content, title) {
        autoSaver.Call(AutoSaveCall(id.value, content, title));
      }
    }

    /**
     * The debounce wait runs out: the latest pending call, if it passes the
     * guard, is sent through the provider and its outcome shown.
     */
    method AutoSaveFires(store: NotesStore, reply: Reply<()>, listStamp: string, openStamp: string)
      returns (delivered: Option<AutoSaveCall>, sent: Option<AutoSaveBody>)
      modifies autoSaver, store`notes, store`currentNote, this`status
      ensures delivered == old(autoSaver.pending) && autoSaver.pending == None
      ensures var sends := delivered.Some? && delivered.value.noteId != "" && (delivered.value.content != "" || delivered.value.title != "");
        && (sends <==> sent.Some?)
        && (sends ==> sent.value == AutoSaveBody(delivered.value.content, Some(delivered.value.title)))
        && (sends ==> status == AutoSaveStatus(reply.Ok?))
        && (sends && reply.Ok? ==> store.notes == StampAutoSaved(old(store.notes), delivered.value.noteId, listStamp))
        && (sends && reply.Ok? ==>
              store.currentNote ==
                (if old(store.currentNote).Some? && old(store.currentNote).value.id == delivered.value.noteId
                 then Some(old(store.currentNote).value.(autoSavedAt := Some(openStamp))) else old(store.currentNote)))
        && (!sends || reply.Fail? ==> store.notes == old(store.notes) && store.currentNote == old(store.currentNote))
        && (!sends ==> status == old(status))
    {
      delivered := autoSaver.Elapse();
      sent := None;
      if delivered.Some? {
        var call := delivered.value;
        if call.noteId != "" && (call.content != "" || call.title != "") {
          var body, saved := store.AutoSaveNote(call.noteId, call.content, Some(call.title), reply, listStamp, openStamp);
          sent := Some(body);
          status := AutoSaveStatus(saved);
        }
      }
    }

    /**
     * The provider's cache after `request` got `reply`: a created note goes in
     * front, an updated note replaces its namesakes and the open note; a
     * failure leaves everything as it was.
     */
    static predicate Sent(request: SaveRequest, reply: Reply<Note>, notes0: seq<Note>, open0: Option<Note>, notes: seq<Note>, open: Option<Note>) {
      if reply.Fail? then notes == notes0 && open == open0
      else if request.CreateRequest? then notes == [reply.value] + notes0 && open == open0
      else
        && notes == ReplaceWhere(notes0, NoteId, request.id, reply.value)
        && open == if open0.Some? && open0.value.id == request.id then Some(reply.value) else open0
    }

    /** Sends one request through the provider. */
    static method Send(request: SaveRequest, store: NotesStore, reply: Reply<Note>) returns (ok: bool)
      modifies store`notes, store`currentNote
      ensures ok == reply.Ok?
      ensures Sent(request, reply, old(store.notes), old(store.currentNote), store.notes, store.currentNote)
    {
      var r;
      if request.UpdateRequest? {
        r := store.UpdateNote(request.id, reply);
      } else {
        r := store.CreateNote(reply);
      }
      ok := r.Ok?;
    }

    /** The request a save sends from the current form, or None when the title is blank. */
    function SaveRequestOf(publishNow: bool): (r: Option<SaveRequest>)
      reads this`title, this`content, this`tags, this`isEncrypted, this`isPublic, this`isDraft
      ensures r.None? <==> AllSpace(title)
      ensures r.Some? ==> (r.value.UpdateRequest? <==> IsEditing(id)) && r.value.payload.title == Trim(title)
      ensures r.Some? ==> (r.value.payload.isDraft <==> isDraft && !publishNow)
    {
      var p := BuildPayload(title, content, tags, isEncrypted, isPublic, isDraft, publishNow);
      if p.None? then None else Some(RequestFor(id, p.value))
    }

    /**
     * The part `handleSave` and `handleSaveAndGoToNotes` share: reject a blank
     * title, else send the create or update request and let the provider
     * update its cache. A blank title returns before `saving` is touched;
     * a sent request leaves `saving` false whatever the reply.
     */
    method Persist(publishNow: bool, store: NotesStore, reply: Reply<Note>) returns (sent: Option<SaveRequest>, ok: bool)
      modifies this`saving, store`notes, store`currentNote
      ensures sent.None? ==> saving == old(saving)
      ensures sent.Some? ==> !saving
      ensures sent == old(SaveRequestOf(publishNow))
      ensures ok <==> sent.Some? && reply.Ok?
      ensures sent.None? ==> store.notes == old(store.notes) && store.currentNote == old(store.currentNote)
      ensures sent.Some? ==> Sent(sent.value, reply, old(store.notes), old(store.currentNote), store.notes, store.currentNote)
    {
      sent := SaveRequestOf(publishNow);
      if sent.None? {
        ok := false;
      } else {
        saving := true;
        ok := Send(sent.value, store, reply);
        saving := false;
      }
    }

    /**
     * `handleSave`: on success shows "Published!" or "Saved!" and, after a
     * create, moves to the new note's editor; a blank title or a failure alerts.
     */
    method HandleSave(publishNow: bool, store: NotesStore, reply: Reply<Note>)
      returns (sent: Option<SaveRequest>, alert: Option<string>, navigateTo: Option<string>)
      modifies this`saving, this`status, store`notes, store`currentNote
      ensures sent.None? ==> saving == old(saving)
      ensures sent.Some? ==> !saving
      ensures sent == old(SaveRequestOf(publishNow))
      ensures sent.None? ==> alert == Some("Please enter a title") && navigateTo == None && status == old(status)
      ensures sent.Some? && reply.Fail? ==> alert == Some("Failed to save note") && navigateTo == None && status == old(status)
      ensures sent.Some? && reply.Ok? ==>
        && alert == None
        && status == (if publishNow then "Published!" else "Saved!")
        && navigateTo == (if sent.value.CreateRequest? then Some(EditRoute(reply.value.id)) else None)
      ensures sent.None? ==> store.notes == old(store.notes) && store.currentNote == old(store.currentNote)
      ensures sent.Some? ==> Sent(sent.value, reply, old(store.notes), old(store.currentNote), store.notes, store.currentNote)
    {
      var ok;
      sent, ok := Persist(publishNow, store, reply);
      alert, navigateTo := None, None;
      if sent.None? {
        alert := Some("Please enter a title");
      } else if !ok {
        alert := Some("Failed to save note");
      } else {
        if sent.value.CreateRequest? {
          navigateTo := Some(EditRoute(reply.value.id));
        }
        status := if publishNow then "Published!" else "Saved!";
      }
    }

    /** `handleSaveAndGoToNotes`: as HandleSave, but a success always goes to the list. */
    method HandleSaveAndGoToNotes(publishNow: bool, store: NotesStore, reply: Reply<Note>)
      returns (sent: Option<SaveRequest>, alert: Option<string>, navigateTo: Option<string>)
      modifies this`saving, store`notes, store`currentNote
      ensures sent.None? ==> saving == old(saving)
      ensures sent.Some? ==> !saving
      ensures sent == old(SaveRequestOf(publishNow))
      ensures sent.None? ==> alert == Some("Please enter a title") && navigateTo == None
      ensures sent.Some? && reply.Fail? ==> alert == Some("Failed to save note") && navigateTo == None
      ensures sent.Some? && reply.Ok? ==> alert == None && navigateTo == Some("/notes")
      ensures sent.None? ==> store.notes == old(store.notes) && store.currentNote == old(store.currentNote)
      ensures sent.Some? ==> Sent(sent.value, reply, old(store.notes), old(store.currentNote), store.notes, store.currentNote)
    {
      var ok;
      sent, ok := Persist(publishNow, store, reply);
      alert, navigateTo := None, None;
      if sent.None? {
        alert := Some("Please enter a title");
      } else if !ok {
        alert := Some("Failed to save note");
      } else {
        navigateTo := Some("/notes");
      }
    }
  }
}
