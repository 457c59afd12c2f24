/**
 * The notes list view: the query it sends, the pages it walks through (by
 * buttons or by infinite scroll), the tags it offers as filters and the
 * preview it shows for each note.
 */
module NotesList {
  import opened Wrappers
  import opened Seqs
  import opened NotesContext

  /** The filter and sort controls of the list. Unset text filters are "". */
  datatype Filters = Filters(
    searchTerm: string,
    filterDrafts: string,
    selectedTag: string,
    selectedLabel: string,
    selectedCategory: string,
    visibility: string,
    sortBy: string,
    sortOrder: string,
    dateFrom: string,
    dateTo: string)

  /** The controls as the list first shows them. */
  const InitialFilters := Filters("", "all", "", "", "", "all", "updated_at", "desc", "", "")

  // ---------------------------------------------------------------------------
  // queries

  /** Page size: 20 per batch while scrolling, 5 per page otherwise. */
  function PageSize(infinite: bool): int {
    if infinite then 20 else 5
  }

  /**
   * The query object of `loadNotes`. An optional key that the object leaves
   * out is None; the URL encoding of the object is not part of this model.
   */
  datatype NotesQuery = NotesQuery(
    page: int,
    limit: int,
    sortBy: string,
    sortOrder: string,
    infiniteScroll: bool,
    search: Option<string>,
    draftOnly: Option<string>,
    tag: Option<string>,
    visibility: Option<string>,
    dateFrom: Option<string>,
    dateTo: Option<string>)

  /** `...(cond && { key: v })`: the entry when `cond` holds, no key otherwise. */
  function When(cond: bool, v: string): (r: Option<string>)
    ensures r.Some? <==> cond
    ensures r.Some? ==> r.value == v
  {
    if cond then Some(v) else None
  }

  /**
   * The query of `loadNotes`: the next page on a load-more and the current
   * page otherwise, the page size of the mode, the sort, and each optional
   * filter only when it is set. A draft filter is sent as "true" for drafts
   * and "false" for published notes.
   */
  function LoadParams(f: Filters, currentPage: int, infinite: bool, isLoadMore: bool): (q: NotesQuery)
    ensures q.page == if isLoadMore then currentPage + 1 else currentPage
    ensures q.limit == if infinite then 20 else 5
    ensures q.sortBy == f.sortBy && q.sortOrder == f.sortOrder && q.infiniteScroll == infinite
    ensures q.search.Some? <==> f.searchTerm != ""
    ensures q.draftOnly.Some? <==> f.filterDrafts != "all"
    ensures q.tag.Some? <==> f.selectedTag != ""
    ensures q.visibility.Some? <==> f.visibility != "all"
    ensures q.dateFrom.Some? <==> f.dateFrom != ""
    ensures q.dateTo.Some? <==> f.dateTo != ""
    ensures q.search.Some? ==> q.search.value == f.searchTerm
    ensures q.draftOnly.Some? ==> q.draftOnly.value == if f.filterDrafts == "drafts" then "true" else "false"
    ensures q.tag.Some? ==> q.tag.value == f.selectedTag
    ensures q.visibility.Some? ==> q.visibility.value == f.visibility
    ensures q.dateFrom.Some? ==> q.dateFrom.value == f.dateFrom
    ensures q.dateTo.Some? ==> q.dateTo.value == f.dateTo
  {
    NotesQuery(
      if isLoadMore then currentPage + 1 else currentPage,
      PageSize(infinite),
      f.sortBy,
      f.sortOrder,
      infinite,
      When(f.searchTerm != "", f.searchTerm),
      When(f.filterDrafts != "all", if f.filterDrafts == "drafts" then "true" else "false"),
      When(f.selectedTag != "", f.selectedTag),
      When(f.visibility != "all", f.visibility),
      When(f.dateFrom != "", f.dateFrom),
      When(f.dateTo != "", f.dateTo))
  }

  /** A load-more sends the very query a plain load of the next page would send. */
  lemma LoadMoreIsNextPage(f: Filters, currentPage: int, infinite: bool)
    ensures LoadParams(f, currentPage, infinite, true) == LoadParams(f, currentPage + 1, infinite, false)
  {
  }

  /** The query object of `loadNotesWithLabels`. */
  datatype LabelQuery = LabelQuery(labelId: Option<string>, categoryId: Option<string>, search: Option<string>)

  /** The query of `loadNotesWithLabels`: each of the three filters only when set. */
  function LabelFilters(f: Filters): (q: LabelQuery)
    ensures q.labelId.Some? <==> f.selectedLabel != ""
    ensures q.categoryId.Some? <==> f.selectedCategory != ""
    ensures q.search.Some? <==> f.searchTerm != ""
    ensures q.labelId.Some? ==> q.labelId.value == f.selectedLabel
    ensures q.categoryId.Some? ==> q.categoryId.value == f.selectedCategory
    ensures q.search.Some? ==> q.search.value == f.searchTerm
  {
    LabelQuery(
      When(f.selectedLabel != "", f.selectedLabel),
      When(f.selectedCategory != "", f.selectedCategory),
      When(f.searchTerm != "", f.searchTerm))
  }

  /** The cards shown: the label-aware list once a label or category is chosen, the cache otherwise. */
  function ListSource(f: Filters, notes: seq<Note>, notesWithLabels: seq<Note>): (shown: seq<Note>)
    ensures f.selectedLabel != "" || f.selectedCategory != "" ==> shown == notesWithLabels
    ensures f.selectedLabel == "" && f.selectedCategory == "" ==> shown == notes
  {
    if f.selectedLabel != "" || f.selectedCategory != "" then notesWithLabels else notes
  }

  /** What the list area shows: a spinner, the "No notes found" panel, or note cards. */
  datatype ListBody = Spinner | EmptyState | Cards(notes: seq<Note>)

  /**
   * The list area: a spinner while the provider loads; otherwise the empty
   * panel when the provider's cache is empty (whatever the label-aware list
   * holds), and else the cards of ListSource.
   */
  function Body(loading: bool, f: Filters, notes: seq<Note>, notesWithLabels: seq<Note>): (b: ListBody)
    ensures loading <==> b.Spinner?
    ensures !loading ==> (b.EmptyState? <==> notes == [])
    ensures b.Cards? ==> b.notes == ListSource(f, notes, notesWithLabels)
  {
    if loading then Spinner
    else if notes == [] then EmptyState
    else Cards(ListSource(f, notes, notesWithLabels))
  }

  /**
   * The empty panel follows the provider's cache alone: with a label chosen,
   * an empty cache hides every label-aware note, and a non-empty cache can
   * show no card and no panel when no note carries the label.
   */
  lemma EmptyStateFollowsCacheOnly(f: Filters, notes: seq<Note>, notesWithLabels: seq<Note>)
    requires f.selectedLabel != ""
    ensures Body(false, f, [], notesWithLabels) == EmptyState
    ensures notes != [] ==> Body(false, f, notes, []) == Cards([])
  {
  }

  // ---------------------------------------------------------------------------
  // tags and previews

  /** Every tag of every note, note by note, a missing tag list read as empty. */
  function FlatTags(notes: seq<Note>): (r: seq<string>)
    ensures forall t :: t in r <==> exists i :: 0 <= i < |notes| && t in notes[i].tags.GetOr([])
  {
    if notes == [] then []
    else
      var r := notes[0].tags.GetOr([]) + FlatTags(notes[1..]);
      forall t, i | 1 <= i < |notes| && t in notes[i].tags.GetOr([])
        ensures exists j :: 0 <= j < |notes[1..]| && t in notes[1..][j].tags.GetOr([])
      {
        assert notes[1..][i - 1] == notes[i];
      }
      r
  }

  /**
   * `getAllTags`: each tag that occurs in some note exactly once, in the order
   * of first occurrence.
   */
  function GetAllTags(notes: seq<Note>): (r: seq<string>)
    ensures NoDup(r)
    ensures forall t :: t in r <==> exists i :: 0 <= i < |notes| && t in notes[i].tags.GetOr([])
    ensures IsSubsequence(r, FlatTags(notes))
    ensures InFirstOccurrenceOrder(r, FlatTags(notes))
  {
    DedupeSpec(FlatTags(notes));
    Dedupe(FlatTags(notes))
  }

  /** Characters of content a card shows before cutting it short. */
  const PreviewLength := 150

  /**
   * The card's preview: "No content" for missing or empty content, the whole
   * content when it fits, and otherwise its first 150 characters followed by
   * "...".
   */
  function Preview(content: Option<string>): (r: string)
    ensures content.None? || content.value == "" ==> r == "No content"
    ensures content.Some? && 0 < |content.value| <= PreviewLength ==> r == content.value
    ensures content.Some? && |content.value| > PreviewLength ==>
      |r| == PreviewLength + 3 && r[..PreviewLength] == content.value[..PreviewLength] && r[PreviewLength..] == "..."
  {
    if content.None? || content.value == "" then "No content"
    else
      var c := content.value;
      var cut := if |c| < PreviewLength then |c| else PreviewLength;
      c[..cut] + (if |c| > PreviewLength then "..." else "")
  }

  // ---------------------------------------------------------------------------
  // pages

  /** The first and last note numbers of "Showing X to Y of Z notes". */
  function RangeStart(p: Pagination): int {
    (p.page - 1) * p.limit + 1
  }

  function RangeEnd(p: Pagination): (r: int)
    ensures r <= p.total && r <= p.page * p.limit
    ensures r == p.total || r == p.page * p.limit
  {
    if p.page * p.limit < p.total then p.page * p.limit else p.total
  }

  /**
   * The range never runs past the total and never spans more than a page; it
   * is non-empty exactly when earlier pages do not already cover every note.
   */
  lemma RangeBounds(p: Pagination)
    requires p.page >= 1 && p.limit >= 1
    ensures RangeEnd(p) <= p.total
    ensures RangeEnd(p) - RangeStart(p) + 1 <= p.limit
    ensures RangeStart(p) <= RangeEnd(p) <==> (p.page - 1) * p.limit < p.total
  {
    assert (p.page - 1) * p.limit == p.page * p.limit - p.limit;
  }

  /** Consecutive pages show adjoining ranges: no note is skipped or shown twice. */
  lemma ConsecutiveRangesAdjoin(p: Pagination)
    requires p.page >= 1 && p.limit >= 1 && p.page * p.limit < p.total
    ensures RangeStart(p.(page := p.page + 1)) == RangeEnd(p) + 1
  {
  }

  datatype PageButton = First | Previous | Next | Last

  /** First and Previous are disabled on page 1 and before; Next and Last on the last page and after. */
  predicate PageEnabled(b: PageButton, page: int, totalPages: int) {
    if b.First? || b.Previous? then page > 1 else page < totalPages
  }

  /**
   * The page after clicking `b`: a disabled button does nothing; First goes to
   * 1, Last to the last page, Previous and Next move by one within the pages.
   */
  function PageAfter(b: PageButton, page: int, totalPages: int): (r: int)
    ensures !PageEnabled(b, page, totalPages) ==> r == page
    ensures 1 <= page <= totalPages ==> 1 <= r <= totalPages
    ensures 1 <= page ==> 1 <= r
    ensures PageEnabled(b, page, totalPages) && b.Previous? ==> r == page - 1
    ensures PageEnabled(b, page, totalPages) && b.Next? ==> r == page + 1
    ensures PageEnabled(b, page, totalPages) && b.First? ==> r == 1
    ensures PageEnabled(b, page, totalPages) && b.Last? ==> r == totalPages
  {
    if !PageEnabled(b, page, totalPages) then page
    else match b
      case First => 1
      case Previous => if page > 1 then page - 1 else page
      case Next => if page < totalPages then page + 1 else page
      case Last => totalPages
  }

  // ---------------------------------------------------------------------------
  // loading

  /** The paging part of the list's state. */
  datatype Paging = Paging(currentPage: int, pagination: Option<Pagination>, hasMoreNotes: bool, isLoadingMore: bool)

  /**
   * `loadNotes` as written: it reads `pagination` from the result of the
   * provider's `fetchNotes`, which resolves to nothing, so the paging state
   * never changes; only the load-more flag is cleared.
   */
  function LoadStepAsWritten(s: Paging, isLoadMore: bool, reply: Reply<NotesResponse>): (r: Paging)
    ensures r.currentPage == s.currentPage && r.pagination == s.pagination && r.hasMoreNotes == s.hasMoreNotes
    ensures r.isLoadingMore == (if isLoadMore then false else s.isLoadingMore)
  {
    s.(isLoadingMore := if isLoadMore then false else s.isLoadingMore)
  }

  /**
   * `loadNotes` with the provider's reply: a successful response that carries
   * pagination is recorded, `hasMoreNotes` follows its `hasNext`, and a
   * load-more moves to the page it fetched. The load-more flag is cleared on
   * every outcome of a load-more.
   */
  function LoadStep(s: Paging, isLoadMore: bool, reply: Reply<NotesResponse>): (r: Paging)
    ensures reply.Ok? && reply.value.pagination.Some? ==>
      && r.pagination == reply.value.pagination
      && r.hasMoreNotes == reply.value.pagination.value.hasNext
      && r.currentPage == (if isLoadMore then s.currentPage + 1 else s.currentPage)
    ensures reply.Fail? || reply.value.pagination.None? ==>
      r.currentPage == s.currentPage && r.pagination == s.pagination && r.hasMoreNotes == s.hasMoreNotes
    ensures r.isLoadingMore == (if isLoadMore then false else s.isLoadingMore)
  {
    var s' := if reply.Ok? && reply.value.pagination.Some? then
      var p := reply.value.pagination.value;
      s.(pagination := Some(p), hasMoreNotes := p.hasNext,
         currentPage := if isLoadMore then s.currentPage + 1 else s.currentPage)
    else s;
    s'.(isLoadingMore := if isLoadMore then false else s.isLoadingMore)
  }

  /** Whether the page controls render: in page mode, once pagination is known. */
  predicate PageControlsShown(infinite: bool, pagination: Option<Pagination>) {
    !infinite && pagination.Some?
  }

  /** Page-mode loads, one per reply, in order, as written. */
  function LoadSeriesAsWritten(s: Paging, replies: seq<Reply<NotesResponse>>): Paging
    decreases |replies|
  {
    if replies == [] then s else LoadSeriesAsWritten(LoadStepAsWritten(s, false, replies[0]), replies[1..])
  }

  /** Page-mode loads, one per reply, in order, as LoadStep records them. */
  function LoadSeries(s: Paging, replies: seq<Reply<NotesResponse>>): Paging
    decreases |replies|
  {
    if replies == [] then s else LoadSeries(LoadStep(s, false, replies[0]), replies[1..])
  }

  /** Some reply of the series is a success that reports pagination. */
  predicate SomePaginated(replies: seq<Reply<NotesResponse>>) {
    exists i :: 0 <= i < |replies| && replies[i].Ok? && replies[i].value.pagination.Some?
  }

  /**
   * As written, no series of page-mode loads ever records pagination, however
   * the server answers: the page controls never render and the list stays
   * on the page it started on.
   */
  lemma {:induction false} StuckOnFirstPageAsWritten(s: Paging, replies: seq<Reply<NotesResponse>>)
    requires s.pagination.None?
    ensures LoadSeriesAsWritten(s, replies) == s
    ensures var s' := LoadSeriesAsWritten(s, replies);
      && s'.pagination.None? && s'.currentPage == s.currentPage
      && !PageControlsShown(false, s'.pagination)
    decreases |replies|
  {
    if replies != [] {
      StuckOnFirstPageAsWritten(LoadStepAsWritten(s, false, replies[0]), replies[1..]);
    }
  }

  /**
   * With the reply recorded, the page controls render once any load of the
   * series was answered with pagination, and stay; page-mode loads never
   * move the page themselves.
   */
  lemma {:induction false} ControlsShownOnceServerPaginates(s: Paging, replies: seq<Reply<NotesResponse>>)
    requires SomePaginated(replies) || s.pagination.Some?
    ensures var s' := LoadSeries(s, replies);
      PageControlsShown(false, s'.pagination) && s'.currentPage == s.currentPage
    decreases |replies|
  {
    if replies != [] {
      var s1 := LoadStep(s, false, replies[0]);
      if !(replies[0].Ok? && replies[0].value.pagination.Some?) && s.pagination.None? {
        var i :| 0 <= i < |replies| && replies[i].Ok? && replies[i].value.pagination.Some?;
        assert replies[1..][i - 1] == replies[i];
      }
      ControlsShownOnceServerPaginates(s1, replies[1..]);
    }
  }

  /** Infinite scroll asks for more near the bottom, only when more exist and nothing is loading. */
  predicate ScrollTriggers(nearBottom: bool, hasMoreNotes: bool, isLoadingMore: bool, loading: bool) {
    nearBottom && hasMoreNotes && !isLoadingMore && !loading
  }

  /**
   * Successive successful load-mores ask for successive pages, and once the
   * server reports no next page the scroll stops asking.
   */
  lemma LoadMoreAdvances(f: Filters, s: Paging, reply: Reply<NotesResponse>)
    requires reply.Ok? && reply.value.pagination.Some?
    ensures var s' := LoadStep(s, true, reply);
      && LoadParams(f, s'.currentPage, true, true).page == s.currentPage + 2
      && (!reply.value.pagination.value.hasNext ==> forall nearBottom, loading :: !ScrollTriggers(nearBottom, s'.hasMoreNotes, s'.isLoadingMore, loading))
  {
  }

  /**
   * As written, a load-more that the server answers with "no next page" asks
   * for the very same page again at the next scroll, and the scroll keeps
   * asking.
   */
  lemma LoadMoreRepeatsAsWritten(f: Filters, s: Paging, reply: Reply<NotesResponse>)
    requires s.hasMoreNotes
    requires reply.Ok? && reply.value.pagination.Some? && !reply.value.pagination.value.hasNext
    ensures var s' := LoadStepAsWritten(s, true, reply);
      && LoadParams(f, s'.currentPage, true, true).page == LoadParams(f, s.currentPage, true, true).page
      && ScrollTriggers(true, s'.hasMoreNotes, s'.isLoadingMore, false)
  {
  }

  // ---------------------------------------------------------------------------
  // the list component

  class ListView {
    var filters: Filters
    var infinite: bool
    var currentPage: int
    var pagination: Option<Pagination>
    var hasMoreNotes: bool
    var isLoadingMore: bool
    var notesWithLabels: seq<Note>

    constructor ()
      ensures filters == InitialFilters && !infinite && currentPage == 1
      ensures pagination == None && hasMoreNotes && !isLoadingMore && notesWithLabels == []
    {
      filters := InitialFilters;
      infinite := false;
      currentPage := 1;
      pagination := None;
      hasMoreNotes := true;
      isLoadingMore := false;
      notesWithLabels := [];
    }

    function PagingState(): Paging
      reads this
    {
      Paging(currentPage, pagination, hasMoreNotes, isLoadingMore)
    }

    /**
     * `loadNotes`: sends the query through the provider and records the
     * paging the reply reports, as LoadStep says. The provider replaces its
     * cache on success; a failure is logged and swallowed.
     */
    method LoadNotes(isLoadMore: bool, store: NotesStore, reply: Reply<NotesResponse>) returns (sent: NotesQuery)
      modifies this`currentPage, this`pagination, this`hasMoreNotes, this`isLoadingMore, store
      ensures sent == old(LoadParams(filters, currentPage, infinite, isLoadMore))
      ensures PagingState() == LoadStep(old(PagingState()), isLoadMore, reply)
      ensures store.notes == (if reply.Ok? then reply.value.notes else old(store.notes))
      ensures store.currentNote == old(store.currentNote) && !store.loading
    {
      sent := LoadParams(filters, currentPage, infinite, isLoadMore);
      if isLoadMore {
        isLoadingMore := true;
      }
      var r := store.FetchNotes(reply);
      if r.Ok? && r.value.pagination.Some? {
        var p := r.value.pagination.value;
        pagination := Some(p);
        hasMoreNotes := p.hasNext;
        if isLoadMore {
          currentPage := currentPage + 1;
        }
      }
      if isLoadMore {
        isLoadingMore := false;
      }
    }

    /** `loadNotesWithLabels`: the label-aware list is replaced on success and kept on failure. */
    method LoadNotesWithLabels(reply: Reply<seq<Note>>) returns (sent: LabelQuery)
      modifies this`notesWithLabels
      ensures sent == LabelFilters(filters)
      ensures notesWithLabels == if reply.Ok? then reply.value else old(notesWithLabels)
    {
      sent := LabelFilters(filters);
      if reply.Ok? {
        notesWithLabels := reply.value;
      }
    }

    /** Changing a filter or the sort goes back to page 1. */
    method ChangeFilters(f: Filters)
      modifies this`filters, this`currentPage
      ensures filters == f && currentPage == 1
    {
      filters := f;
      currentPage := 1;
    }

    /** Switching between pages and infinite scroll goes back to page 1. */
    method SetInfinite(on: bool)
      modifies this`infinite, this`currentPage
      ensures infinite == on && currentPage == 1
    {
      infinite := on;
      currentPage := 1;
    }

    /**
     * A click on a page button. The buttons are shown only in page mode once
     * pagination is known; the page then moves as PageAfter says.
     */
    method ClickPage(b: PageButton)
      modifies this`currentPage
      ensures PageControlsShown(infinite, pagination) ==> currentPage == PageAfter(b, old(currentPage), pagination.value.totalPages)
      ensures !PageControlsShown(infinite, pagination) ==> currentPage == old(currentPage)
    {
      if PageControlsShown(infinite, pagination) {
        var totalPages := pagination.value.totalPages;
        match b
        case First =>
          if currentPage > 1 { currentPage := 1; }
        case Previous =>
          if currentPage > 1 { currentPage := currentPage - 1; }
        case Next =>
          if currentPage < totalPages { currentPage := currentPage + 1; }
        case Last =>
          if currentPage < totalPages { currentPage := totalPages; }
      }
    }
  }
}
