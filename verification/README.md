# Notes client: a verified model of its client-side bookkeeping

The notes client is a React single-page application over a REST notes
server. This project models what the client does once a server call has
returned. That means the providers' in-memory caches of notes, labels and
categories, the note editor's form and save rules, the list view's queries
and paging, the label manager's form, the auth session, and the route
guards. Every server call is a parameter of type `Reply<T>` (module
`Wrappers`): either `Ok(value)` or `Fail(message)`, where the optional
message stands for the `error` field of the response body. Each property
is then about how local state changes on each branch.

Modules follow the source files:

- `NotesContext` (notes_context.dfy) is the notes provider. `NotesStore`
  is a class whose `notes`, `currentNote` and `loading` fields its methods
  update. The list transforms are the pure functions of `Seqs`:
  `RemoveWhere` is `filter` by id, and `ReplaceWhere` is `map`-replace by
  id.
- `LabelsContext` (labels_context.dfy) is the labels provider, with its
  `labels` and `categories` caches. Labels and categories share one `Item`
  type.
- `NoteEditor` (note_editor.dfy) covers:
  - the tag list (`AddTag`, `RemoveTag`);
  - the save payload and the create/update choice;
  - the autosave guard and status;
  - the last-call-wins `Debouncer`;
  - the `Editor` component's handlers.
- `NotesList` (notes_list.dfy) covers the query objects of `loadNotes` and
  `loadNotesWithLabels`, paging, the tag filter list, the preview, and the
  `ListView` component.
- `LabelsManager` (labels_manager.dfy) is the label/category form: tab
  defaults, edit, submit and delete.
- `AuthContext` (auth_context.dfy) is the session. It has the user, the
  token in local storage, the `Authorization` header and `loading`, across
  startup, profile fetch, login, signup and logout. Storage and the header
  are plain fields.
- `App` (app.dfy) holds the route table, the matching of a URL path to a
  route, and the two route guards. Matching ignores the case of the
  route's fixed text and any trailing slashes, as the router does, and keeps
  the parameters as written. A URL that no route matches renders
  nothing. The note cards' title link `/notes/<id>`
  (src/components/NotesList.tsx:278) is such a URL.
- The helper modules are:
  - `Wrappers`: `Option`, `Reply` and `ErrorText`, which is
    `error.response?.data?.error || fallback`;
  - `Seqs`: list transforms and their lemmas;
  - `Text`: JavaScript's `String.prototype.trim`, over the ECMAScript
    white-space and line-terminator characters.

Two places follow the evident intent rather than the code as written. Both
are under "## Findings", and the as-written behaviour is modelled beside
each:

- `NotesContext.NotesStore.FetchNotes` hands the reply back to its caller,
  so `NotesList.ListView.LoadNotes` can read the pagination.
- `NotesContext.NotesStore.AutoSaveNote` reports through `saved` whether
  the server accepted the autosave.

## Model

| member | source | states |
|---|---|---|
| Wrappers.ErrorText | src/components/LabelsManager.tsx:68 | a failure shows the server's message when it is non-empty, else the fallback text |
| Text.Trim | src/components/NoteEditor.tsx:82 | the result is the input's slice between its leading and trailing white space; only white space is cut; it is empty exactly when the input is all white space; it neither starts nor ends with white space |
| Text.TrimIdempotent | src/components/NoteEditor.tsx:148 | trimming a trimmed string changes nothing |
| Seqs.RemoveWhere | src/contexts/NotesContext.tsx:123 | no kept element has the id; every kept element was in the input; the list does not grow |
| Seqs.RemoveWhereSpec | src/contexts/NotesContext.tsx:123 | the result is a subsequence of the input, so the rest keep their order; every element without the id keeps its number of occurrences and every element with it is gone |
| Seqs.RemoveWhereIdempotent | src/contexts/LabelsContext.tsx:122 | deleting the same id twice is the same as deleting it once |
| Seqs.ReplaceWhere | src/contexts/NotesContext.tsx:105-107 | the length is kept |
| Seqs.ReplaceWhereAt | src/contexts/NotesContext.tsx:105-107 | position by position, an entry with the id becomes the new value and every other entry is unchanged and in place |
| Seqs.ReplaceWhereIdempotent | src/contexts/LabelsContext.tsx:108-110 | applying the same update twice is the same as once |
| Seqs.RemoveAfterReplace | src/contexts/NotesContext.tsx:100-132 | deleting an id after updating it leaves what deleting it alone leaves |
| Seqs.DedupeSpec | src/components/NotesList.tsx:156-159 | de-duplication gives a duplicate-free list with exactly the input's elements, as a subsequence of the input, and in their order of first occurrence: whatever precedes an element in the result occurs in the input before that element first does |
| Seqs.Dedupe | src/components/NotesList.tsx:158 | `Array.from(new Set(...))`: the elements kept in insertion order, each once; its properties are those of DedupeSpec |
| Seqs.InFirstOccurrenceOrder | src/components/NotesList.tsx:158 | a set's insertion order: everything before an element of the result occurs in the input before that element's first occurrence |
| Seqs.DedupeIntoOrder | src/components/NotesList.tsx:158 | inserting the rest of a list into an insertion-ordered set places each new element after everything that precedes its first occurrence |
| NotesContext.StampAutoSavedAt | src/contexts/NotesContext.tsx:144-146 | an autosave stamp changes only `auto_saved_at`, and only on the notes with the id; every note keeps its place |
| NotesContext.StampAutoSaved | src/contexts/NotesContext.tsx:144-146 | the autosave stamp of the cache: the length is kept; StampAutoSavedAt states the rest |
| NotesContext.CreateThenDeleteRestores | src/contexts/NotesContext.tsx:88-132 | a note created with a new id and then deleted leaves the list as it was |
| NotesContext.NotesStore.constructor | src/contexts/NotesContext.tsx:54-56 | the cache starts empty, with no open note, not loading |
| NotesContext.NotesStore.FetchNotes | src/contexts/NotesContext.tsx:59-76 | success replaces the cache wholesale with the response list; failure keeps it and is handed back; `loading` is false on both outcomes |
| NotesContext.NotesStore.CreateNote | src/contexts/NotesContext.tsx:88-98 | success puts the new note in front of all earlier notes, in order; failure changes nothing and is handed back |
| NotesContext.NotesStore.UpdateNote | src/contexts/NotesContext.tsx:100-118 | success replaces the notes with the id, as ReplaceWhere does, and the open note exactly when its id matches; failure changes nothing |
| NotesContext.NotesStore.DeleteNote | src/contexts/NotesContext.tsx:120-132 | success removes every note with the id, as RemoveWhere does, and closes the open note exactly when its id matches; failure changes nothing |
| NotesContext.NotesStore.AutoSaveNote | src/contexts/NotesContext.tsx:134-155 | the body carries the content, and the title only when one is given; success stamps the matching notes with the first clock reading and the matching open note with the second; failure changes nothing and raises nothing |
| NotesContext.NotesStore.SetCurrentNote | src/contexts/NotesContext.tsx:55 | the open note becomes the given one |
| LabelsContext.FetchedList | src/contexts/LabelsContext.tsx:69-72 | the response's list; the empty list when the field is missing or the request failed |
| LabelsContext.CreateThenDeleteRestores | src/contexts/LabelsContext.tsx:91-127 | an item appended with a new id and then deleted leaves the list as it was |
| LabelsContext.LabelsStore.constructor | src/contexts/LabelsContext.tsx:61-63 | both lists start empty, not loading |
| LabelsContext.LabelsStore.FetchLabels | src/contexts/LabelsContext.tsx:65-76 | the labels become FetchedList of the reply; `loading` ends false |
| LabelsContext.LabelsStore.FetchCategories | src/contexts/LabelsContext.tsx:78-89 | the categories become FetchedList of the reply; `loading` ends false |
| LabelsContext.LabelsStore.CreateLabel | src/contexts/LabelsContext.tsx:91-101 | success appends the new label at the end; failure changes nothing and is handed back |
| LabelsContext.LabelsStore.UpdateLabel | src/contexts/LabelsContext.tsx:103-117 | success replaces the labels with the id, keeping the length; failure changes nothing |
| LabelsContext.LabelsStore.DeleteLabel | src/contexts/LabelsContext.tsx:119-127 | success removes every label with the id; failure changes nothing |
| LabelsContext.LabelsStore.CreateCategory | src/contexts/LabelsContext.tsx:129-139 | success appends the new category at the end; failure changes nothing |
| LabelsContext.LabelsStore.UpdateCategory | src/contexts/LabelsContext.tsx:141-155 | success replaces the categories with the id, keeping the length; failure changes nothing |
| LabelsContext.LabelsStore.DeleteCategory | src/contexts/LabelsContext.tsx:157-165 | success removes every category with the id; failure changes nothing |
| NoteEditor.AddTag | src/components/NoteEditor.tsx:147-153 | the list grows by one exactly when the trimmed input is non-empty and new, and then the input is cleared; otherwise nothing changes; a duplicate-free list stays duplicate-free |
| NoteEditor.RemoveTag | src/components/NoteEditor.tsx:155-157 | the tag is gone; every other tag keeps its number of occurrences and its order; a duplicate-free list stays duplicate-free |
| NoteEditor.AddThenRemoveTag | src/components/NoteEditor.tsx:147-157 | removing the tag just added gives the tag list back |
| NoteEditor.BuildPayload | src/components/NoteEditor.tsx:82-96 | no payload exactly when the title is blank after trimming; otherwise the title is trimmed and non-empty, the other fields are copied, and the draft flag is cleared whenever publishing |
| NoteEditor.RequestFor | src/components/NoteEditor.tsx:98-103 | an update of the route's id exactly when editing an existing note, a create otherwise |
| NoteEditor.IsEditing | src/components/NoteEditor.tsx:22 | `!!id`: editing exactly when the route carries a non-empty id |
| NoteEditor.ShouldAutoSave | src/components/NoteEditor.tsx:50 | autosave is asked for exactly when editing an existing note whose title or content is non-empty |
| NoteEditor.AutoSaveStatusAsWritten | src/components/NoteEditor.tsx:29-37 | as written, the status after an autosave is always "Auto-saved" |
| NoteEditor.FailedAutoSaveShownAsSaved | src/components/NoteEditor.tsx:30-35 | a failed autosave is shown as saved, unlike the intended status |
| NoteEditor.AutoSaveStatus | src/components/NoteEditor.tsx:29-37 | "Auto-saved" exactly when the server accepted the autosave, "Save failed" otherwise |
| NoteEditor.Debouncer.constructor | src/components/NoteEditor.tsx:346 | nothing is pending at first |
| NoteEditor.Debouncer.Call | src/components/NoteEditor.tsx:347-350 | a call cancels the pending one and leaves only its own arguments pending |
| NoteEditor.Debouncer.Elapse | src/components/NoteEditor.tsx:349 | when the wait runs out, exactly the latest pending arguments are delivered, and nothing stays pending |
| NoteEditor.Editor.constructor | src/components/NoteEditor.tsx:10-19 | the form starts empty, as an unencrypted private draft, with nothing saving |
| NoteEditor.Editor.LoadNote | src/components/NoteEditor.tsx:55-79 | without an id nothing happens; success copies the note, with missing content as "" and missing tags as []; failure alerts "Failed to load note" and goes to /notes; loading ends false |
| NoteEditor.Editor.HandleAddTag | src/components/NoteEditor.tsx:147-153 | the tag list and input move as AddTag says |
| NoteEditor.Editor.HandleRemoveTag | src/components/NoteEditor.tsx:155-157 | the tag list moves as RemoveTag says |
| NoteEditor.Editor.EditText | src/components/NoteEditor.tsx:49-53 | typing hands the autosave to the debouncer exactly when editing an existing note with some title or content |
| NoteEditor.Editor.AutoSaveFires | src/components/NoteEditor.tsx:26-39 | the latest pending call is sent exactly when it passes the guard, with its content and title; the status then follows the server's answer; success stamps the cached notes with the id using the first clock reading, and the open note exactly when its id matches using the second; otherwise the cache and the open note are unchanged |
| NoteEditor.Editor.Send | src/components/NoteEditor.tsx:98-103 | an update request goes through UpdateNote and a create through CreateNote, with the provider's cache effect |
| NoteEditor.Editor.Sent | src/components/NoteEditor.tsx:98-103 | the cache after a save: a created note goes in front; an update replaces the notes with the id and the open note exactly when its id matches; a failure changes nothing |
| NoteEditor.Editor.SaveRequestOf | src/components/NoteEditor.tsx:82-103 | no request exactly when the title is blank; otherwise an update exactly when editing, with the trimmed title and the publish/draft rule |
| NoteEditor.Editor.Persist | src/components/NoteEditor.tsx:81-113 | a blank title sends nothing and changes nothing, `saving` included; otherwise the request is sent, the cache moves as the provider says, and `saving` ends false |
| NoteEditor.Editor.HandleSave | src/components/NoteEditor.tsx:81-113 | a blank title alerts "Please enter a title" and leaves `saving` alone; a failure alerts "Failed to save note"; success shows "Published!" or "Saved!" and, after a create, goes to the new note's editor; a sent request leaves `saving` false |
| NoteEditor.Editor.HandleSaveAndGoToNotes | src/components/NoteEditor.tsx:115-145 | as HandleSave, but success always goes to /notes |
| NotesList.When | src/components/NotesList.tsx:98-103 | a conditional entry is present exactly when its condition holds, with the given value |
| NotesList.LoadParams | src/components/NotesList.tsx:92-104 | the page is the next one for a load-more and the current one otherwise; the limit is 20 when scrolling and 5 otherwise; each optional key is present exactly when its filter is set; `draft_only` is "true" for drafts and "false" for published |
| NotesList.LoadMoreIsNextPage | src/components/NotesList.tsx:93 | a load-more sends the same query as a plain load of the next page |
| NotesList.LabelFilters | src/components/NotesList.tsx:163-166 | each of the label, category and search keys is present exactly when its filter is set |
| NotesList.ListSource | src/components/NotesList.tsx:274 | the label-aware list once a label or category is chosen, the cached notes otherwise |
| NotesList.Body | src/components/NotesList.tsx:177-184 | a spinner exactly while the provider loads; after it, the "No notes found" panel exactly when the cached list is empty, and otherwise the cards of ListSource |
| NotesList.EmptyStateFollowsCacheOnly | src/components/NotesList.tsx:262-274 | with a label chosen, an empty cache shows the empty panel even when label-aware notes exist, and a non-empty cache can show neither cards nor the panel |
| NotesList.FlatTags | src/components/NotesList.tsx:157 | a tag is in the flattened list exactly when some note carries it |
| NotesList.GetAllTags | src/components/NotesList.tsx:156-159 | each tag that occurs in some note appears exactly once, in order of first occurrence |
| NotesList.Preview | src/components/NotesList.tsx:291-294 | "No content" for missing or empty content; the whole content when it is at most 150 characters; otherwise its first 150 characters followed by "..." |
| NotesList.RangeStart | src/components/NotesList.tsx:386 | the first note number of "Showing X to Y": one past the notes of the earlier pages |
| NotesList.RangeEnd | src/components/NotesList.tsx:386 | the last note number: the smaller of the page's end and the total |
| NotesList.RangeBounds | src/components/NotesList.tsx:386 | the range end never exceeds the total; a range spans at most one page; it is non-empty exactly when earlier pages do not cover every note |
| NotesList.ConsecutiveRangesAdjoin | src/components/NotesList.tsx:386 | the next page's range starts right after this page's range ends |
| NotesList.PageEnabled | src/components/NotesList.tsx:394-434 | First and Previous are enabled only after page 1; Next and Last only before the last page |
| NotesList.PageControlsShown | src/components/NotesList.tsx:383 | the page controls render only in page mode once pagination is known |
| NotesList.PageAfter | src/components/NotesList.tsx:389-434 | a disabled button does nothing; an enabled First goes to 1, Previous to the page before, Next to the page after, and Last to the last page; a page within `[1, totalPages]` stays within it |
| NotesList.LoadStepAsWritten | src/components/NotesList.tsx:114-132 | as written, paging never changes after a load; only the load-more flag is cleared |
| NotesList.LoadStep | src/components/NotesList.tsx:117-131 | a response with pagination records it, `hasMoreNotes` follows `hasNext`, and a load-more advances the page by exactly one; otherwise paging is kept; the load-more flag is cleared on every path |
| NotesList.LoadMoreAdvances | src/components/NotesList.tsx:117-125 | after a successful load-more, the next one asks for the page after; once there is no next page, the scroll never triggers |
| NotesList.LoadMoreRepeatsAsWritten | src/components/NotesList.tsx:114-125 | as written, the next load-more asks for the same page again, and the scroll keeps triggering past the last page |
| NotesList.ScrollTriggers | src/components/NotesList.tsx:69-75 | the scroll asks for more only near the bottom, while more notes exist and nothing is loading |
| NotesList.LoadSeriesAsWritten | src/components/NotesList.tsx:114-125 | a series of page-mode loads as written |
| NotesList.LoadSeries | src/components/NotesList.tsx:114-125 | a series of page-mode loads with the reply recorded |
| NotesList.StuckOnFirstPageAsWritten | src/components/NotesList.tsx:114-125 | as written, every series of page-mode loads leaves the paging state exactly as it was, whatever the server answers; pagination is never recorded, the page controls never render and the page never moves |
| NotesList.ControlsShownOnceServerPaginates | src/components/NotesList.tsx:117-125 | with the reply recorded, once any load of a series is answered with pagination the page controls render, and loads never move the page themselves |
| NotesList.ListView.constructor | src/components/NotesList.tsx:22-37 | the initial filters, page 1, no pagination, more notes assumed, not loading more |
| NotesList.ListView.LoadNotes | src/components/NotesList.tsx:91-133 | sends LoadParams of the state before the call; paging moves as LoadStep says; the provider's cache is replaced on success and kept on failure |
| NotesList.ListView.LoadNotesWithLabels | src/components/NotesList.tsx:161-173 | sends LabelFilters; the label-aware list is replaced on success and kept on failure |
| NotesList.ListView.ChangeFilters | src/components/NotesList.tsx:49-54 | a filter change goes back to page 1 |
| NotesList.ListView.SetInfinite | src/components/NotesList.tsx:84-89 | switching the paging mode goes back to page 1 |
| NotesList.ListView.ClickPage | src/components/NotesList.tsx:389-434 | while the page controls are shown, the page moves as PageAfter says; otherwise it is unchanged |
| LabelsManager.DefaultForm | src/components/LabelsManager.tsx:36-42 | empty name and description; #667eea with the label icon on the labels tab; #28a745 with the folder icon on the categories tab |
| LabelsManager.FormOf | src/components/LabelsManager.tsx:74-79 | name, colour and icon are copied; a missing description becomes "" |
| LabelsManager.CurrentItems | src/components/LabelsManager.tsx:117 | the labels on the labels tab, the categories on the categories tab |
| LabelsManager.SubmitRequest | src/components/LabelsManager.tsx:51-65 | an update of the edited item's id exactly when an item is being edited, a create otherwise; the active tab picks the list |
| LabelsManager.Send | src/components/LabelsManager.tsx:51-65 | the request reaches the provider method of its kind and tab; only that tab's list changes, and only on success |
| LabelsManager.Stored | src/contexts/LabelsContext.tsx:91-165 | the provider's lists after a submit: only the request's tab changes, and only on success; a create appends and an update replaces by id |
| LabelsManager.Manager.constructor | src/components/LabelsManager.tsx:21-29 | the labels tab, the label defaults, nothing being edited, the form hidden |
| LabelsManager.Manager.ResetForm | src/components/LabelsManager.tsx:36-45 | the active tab's blank form, nothing being edited, the form hidden |
| LabelsManager.Manager.HandleEdit | src/components/LabelsManager.tsx:72-81 | the form holds the item's fields, the item is remembered, and the form is shown |
| LabelsManager.Manager.SelectTab | src/components/LabelsManager.tsx:135-142 | a tab switch changes only the tab; the form is not reset |
| LabelsManager.Manager.OpenCreateForm | src/components/LabelsManager.tsx:151 | the create button only shows the form |
| LabelsManager.Manager.EditForm | src/components/LabelsManager.tsx:169-225 | typing replaces the form's fields |
| LabelsManager.Manager.HandleSubmit | src/components/LabelsManager.tsx:47-70 | sends SubmitRequest of the state before the call; success resets the form; failure keeps the form and alerts the server's message or "Failed to save item" |
| LabelsManager.Manager.HandleDelete | src/components/LabelsManager.tsx:83-95 | once confirmed, deletes from the active tab's list only; failure alerts the server's message or "Failed to delete item"; without confirmation nothing happens |
| LabelsManager.EditThenSubmitReplaces | src/components/LabelsManager.tsx:51-57 | submitting an edited item replaces it by id in the active tab's list and in no other |
| LabelsManager.CreateAppendsToShownList | src/components/LabelsManager.tsx:58-66 | a created item appears at the end of the list on screen, and the other tab's list is untouched |
| AuthContext.Settle | src/contexts/AuthContext.tsx:84 | a success resolves with the server's value; a failure rejects with the server's message or the fallback text |
| AuthContext.Session.IsAuthenticated | src/contexts/AuthContext.tsx:44 | `!!user`: signed in exactly when there is a user |
| AuthContext.Session.Consistent | src/contexts/AuthContext.tsx:47-65 | whenever the `Authorization` header is installed, it carries the stored token; every session operation keeps this |
| AuthContext.Session.constructor | src/contexts/AuthContext.tsx:41-42 | no user and loading, so signed out; the stored token is whatever storage held |
| AuthContext.Session.FetchUserProfile | src/contexts/AuthContext.tsx:58-69 | success installs the server's user; failure removes the stored token and the header; loading is false on both outcomes |
| AuthContext.Session.Startup | src/contexts/AuthContext.tsx:47-56 | with no stored token, loading ends and the user is kept; with one, its header is installed and the profile is fetched |
| AuthContext.Session.Login | src/contexts/AuthContext.tsx:71-86 | success stores the token, installs its header and sets the user; failure changes nothing and raises the server's message or "Login failed" |
| AuthContext.Session.Signup | src/contexts/AuthContext.tsx:88-101 | hands back the server's body or raises its message or "Signup failed"; the user, token and header never change (no sign-in) |
| AuthContext.Session.Logout | src/contexts/AuthContext.tsx:103-107 | the stored token, the header and the user are all gone, so the session is signed out |
| AuthContext.Session.ForgotPassword | src/contexts/AuthContext.tsx:109-116 | resolves with the server's body or raises its message or "Failed to send reset email" |
| AuthContext.Session.ResetPassword | src/contexts/AuthContext.tsx:118-127 | resolves or raises the server's message or "Failed to reset password" |
| AuthContext.Session.VerifyEmail | src/contexts/AuthContext.tsx:129-135 | resolves or raises the server's message or "Failed to verify email" |
| AuthContext.Session.ResendVerification | src/contexts/AuthContext.tsx:137-143 | resolves or raises the server's message or "Failed to resend verification" |
| AuthContext.RejectedTokenSignsOut | src/contexts/AuthContext.tsx:47-69 | a stored token that the server rejects ends signed out, with no token and no header, and not loading |
| AuthContext.AcceptedTokenSignsIn | src/contexts/AuthContext.tsx:47-69 | a stored token that the server accepts ends signed in as the server's user, with the token's header |
| AuthContext.NoTokenStaysSignedOut | src/contexts/AuthContext.tsx:47-55 | with nothing stored, startup ends loading and nobody is signed in |
| App.ProtectedRoute | src/App.tsx:20-28 | the placeholder while loading; otherwise the page exactly when signed in, else a redirect to /login |
| App.PublicRoute | src/App.tsx:30-38 | the placeholder while loading; otherwise the page exactly when signed out, else a redirect to /notes |
| App.IsPrivate | src/App.tsx:76-116 | the dashboard, the notes list, the new and edit note pages, and the labels page are private |
| App.IsPublicOnly | src/App.tsx:49-72 | login, signup and forgot-password are for signed-out visitors only |
| App.Url | src/App.tsx:48-116 | each route's URL path |
| App.StaticRoute | src/App.tsx:48-116 | a route without a parameter is found exactly at its own URL, lower-cased and with trailing slashes removed, and nowhere else |
| App.Resolve | src/App.tsx:47-117 | the route a URL matches: its URL equals the one given up to letter case and trailing slashes; its parameters are one segment each, taken as written from the URL; or no route, keeping the URL |
| App.ResolveIgnoresCaseAndTrailingSlashes | src/App.tsx:47-117 | for a route without a parameter, any URL that is the route's own path up to letter case and trailing slashes (`/NOTES/`, `/Labels`) opens that route |
| App.EditNoteResolves | src/App.tsx:100-107 | any URL made of `/notes/` and `/edit` in any letter case around a one-segment id, with any trailing slashes (`/Notes/abc/EDIT/`), opens the edit page of that id as written |
| App.PublicNoteResolves | src/App.tsx:108 | any URL made of `/public/` in any letter case before a one-segment id, with any trailing slashes (`/PUBLIC/x/`), opens the shared note of that id as written |
| App.ResolveUrl | src/App.tsx:47-117 | every route is matched again from its own URL |
| App.Follow | src/App.tsx:27-48 | the view after following at most a given number of redirects |
| App.Route | src/App.tsx:47-117 | the root always redirects to /notes; private pages sit behind ProtectedRoute; login, signup and forgot-password sit behind PublicRoute; an unmatched URL renders nothing; the rest render as they are |
| App.RedirectsSettle | src/App.tsx:20-48 | once loading ends, every path reaches a page or nothing within two redirects, never a redirect or the placeholder; it is nothing exactly for an unmatched URL; a page reached is one the visitor may see |
| App.GuardsWaitWhileLoading | src/App.tsx:23-35 | while loading, every guarded path shows only the placeholder, whatever the auth state |
| App.TitleLinkMatchesNothing | src/components/NotesList.tsx:278 | the note card title link `/notes/<id>` matches no route for any one-segment id that is not "new" in any letter case, so following it shows nothing, signed in or not |
| App.TitleLinkNewOpensEditor | src/components/NotesList.tsx:278 | a title link whose id is "new" in any letter case opens the new-note page instead |
| App.EditRouteResolves | src/components/NoteEditor.tsx:102 | the route the editor opens after a create is the edit page of the new note |

## Left out

- HTTP: URLs, methods and the URL-encoding of query objects are not modelled. The query objects are records whose absent keys are `None`; the order of keys in a URL is not modelled.
- Local storage and `axios.defaults` headers are fields of `AuthContext.Session`. The browser's persistence between visits is the constructor's `stored` argument.
- Timers are not modelled. This covers the 2000 ms debounce wait (only the last-call-wins slot is kept), and the `setTimeout` that clears status messages 2000 ms later.
- React effect scheduling is not modelled. This covers:
  - the reload that follows a page change (src/components/NotesList.tsx:56-62), which is a separate `LoadNotes` call here;
  - the initial loads on mount;
  - the stale closure of `loadNotes` in the filter-change and mode-switch effects, which still sees the old page;
  - interleavings of concurrent `loadNotes` calls.
- Scroll geometry is not modelled; `ScrollTriggers` takes "near the bottom" as a boolean.
- Dates are not modelled. They are opaque strings; `NotesContext.NotesStore.AutoSaveNote` takes the two clock readings of a successful autosave (the cache's and the open note's) as the `listStamp` and `openStamp` arguments. `lastSaved` is not modelled.
- NotesList.Preview: counts Unicode code points, whereas JavaScript's `substring` and `length` count UTF-16 code units. Characters outside the Basic Multilingual Plane therefore count once here and twice in the source.
- The label manager's loading spinner is not modelled. The list's `loading` flag is an argument of `NotesList.Body` and of the scroll guard.
- Load-more replaces the provider's cache with the fetched batch rather than appending it. The model states this as the code does.
- `window.confirm` is the `confirmed` argument of `LabelsManager.Manager.HandleDelete`. `alert` and `navigate` are returned values.
- The notes list's `handleDeleteNote`, with its stats refresh, is not modelled. `fetchStats`, `fetchNote` and `fetchPublicNote` are plain reads with no local rules beyond the cache. `fetchNote` is the `reply` of `NoteEditor.Editor.LoadNote`.
- `assignLabelsToNote`, `assignCategoriesToNote` and `fetchNotesWithLabels` in the labels provider are not modelled; they change no provider state. `fetchNotesWithLabels` is the `reply` of `NotesList.ListView.LoadNotesWithLabels`.
- Dead code in the notes list is modelled but never reached in the shipped component. Only the search, sort-by and draft filters have controls (src/components/NotesList.tsx:234, 240, 250). Nothing sets the tag, label, category, visibility, sort-order or date filters, or turns on infinite scroll, and `getAllTags` (src/components/NotesList.tsx:156) is never called. `NotesList.LoadMoreAdvances`, `NotesList.LoadMoreRepeatsAsWritten`, `NotesList.ScrollTriggers` and `NotesList.GetAllTags` therefore describe code no user action reaches.
- Repeated autosave is not modelled. The provider recreates `autoSaveNote` on every render, so the editor's `useCallback` (src/components/NoteEditor.tsx:25-41) builds a new debouncer after each render of the provider. After each successful autosave the change effect (src/components/NoteEditor.tsx:49-53) fires again and the note is autosaved again about every two seconds. The model's only autosave trigger is `NoteEditor.Editor.EditText`.
- App.Resolve: does not percent-decode. The router decodes `%XX` escapes in the URL before it binds `:id` and `:shareId`, so `/public/a%20b` gives the share id `a b`; here the parameter keeps the escape as written. Case folding covers only the ASCII letters A to Z.
- App.TitleLinkMatchesNothing: for the same reason, an id whose escapes decode to "new" (such as `n%65w`) is covered by neither this lemma nor `App.TitleLinkNewOpensEditor`.
- NoteEditor.Editor.AutoSaveFires: shows "Save failed" when the server refuses the autosave, through `NotesContext.NotesStore.AutoSaveNote`'s `saved`; the source shows "Auto-saved" on both outcomes. This follows the corrected half of the second finding.
- NotesList.ListView.LoadNotes: records pagination through `NotesList.LoadStep`, not `NotesList.LoadStepAsWritten`. This follows the corrected half of the first finding.
- Rendering is not modelled: JSX, CSS, the predefined colour and icon tables, and the auth screens that only call these operations.
- NotesContext.NotesStore.FetchNotes: hands the reply back to its caller, whereas the source resolves to nothing; this is the corrected half of the first finding.
- NotesContext.NotesStore.AutoSaveNote: reports `saved`, whereas the source resolves to nothing on both outcomes; this is the corrected half of the second finding.

## Findings

| source | as written | input that shows it | evidently intended | confidence | as-written member | corrected member |
|---|---|---|---|---|---|---|
| src/components/NotesList.tsx:114-125 | `loadNotes` reads `response.pagination` from `fetchNotes`, whose promise resolves to nothing (src/contexts/NotesContext.tsx:59-76), so `pagination` stays null and the page controls, which render only with pagination (src/components/NotesList.tsx:383), never appear | any session in the default page mode: the server answers the first load with 12 notes and 3 pages; no page control is shown, and the list stays on page 1 with notes 6 to 12 out of reach | record the pagination so the page controls render | high, not executed | NotesList.StuckOnFirstPageAsWritten | NotesList.ControlsShownOnceServerPaginates |
| src/components/NoteEditor.tsx:30-35 | `autoSaveNote` catches every error and resolves (src/contexts/NotesContext.tsx:151-154), so the editor's "Save failed" branch never runs | an autosave that the server rejects shows "Auto-saved" | "Save failed" when the server rejects the autosave | high, not executed | NoteEditor.FailedAutoSaveShownAsSaved | NoteEditor.AutoSaveStatus |
