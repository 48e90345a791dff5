/**
 * The notes listing screen: its state (current page, the raw search text,
 * the debounced search text, whether the create modal is open), the events
 * that change it, the list request it issues, and what it renders for a
 * given query outcome.
 */
module NotesClient {
  import opened Wrappers
  import opened QueryKeys
  import NoteForm

  /** Page size of every list request. */
  const PerPage := 12

  /** A note as the notes service returns it. */
  datatype Note = Note(id: string, title: string, content: string, tag: string,
                       createdAt: string, updatedAt: string)

  /** The body of a list response. */
  datatype NotesPage = NotesPage(notes: seq<Note>, totalPages: int)

  /** The parameters of a list request. */
  datatype ListParams = ListParams(page: int, perPage: int, search: string)

  datatype ScreenState = ScreenState(page: int, search: string, debouncedSearch: string, isModalOpen: bool)

  const Initial := ScreenState(1, "", "", false)

  datatype Event =
    | TypeSearch(text: string)   // the search box reports new text
    | DebounceFlush              // the debounce period ends
    | SelectPage(selected: int)  // the pagination control reports a page
    | OpenModal                  // the create button is pressed
    | CloseModal                 // the modal's onClose is called
    | CancelForm                 // the form's onCancel is called

  /**
   * One event. A flush publishes the raw text as the debounced text; when
   * that changes the debounced text, the page-reset effect sets page 1.
   */
  function Step(s: ScreenState, e: Event): (r: ScreenState)
    ensures r.debouncedSearch != s.debouncedSearch ==> e == DebounceFlush && r.debouncedSearch == s.search && r.page == 1
    ensures r.page != s.page ==>
      || e == SelectPage(r.page)
      || (e == DebounceFlush && r.debouncedSearch != s.debouncedSearch && r.page == 1)
    ensures r.search != s.search ==> e == TypeSearch(r.search)
    ensures r.isModalOpen != s.isModalOpen ==> e in {OpenModal, CloseModal, CancelForm}
    ensures e == OpenModal ==> r.isModalOpen
    ensures e == CloseModal || e == CancelForm ==> !r.isModalOpen
  {
    match e
    case TypeSearch(text) => s.(search := text)
    case DebounceFlush =>
      if s.search == s.debouncedSearch then s
      else s.(debouncedSearch := s.search, page := 1)
    case SelectPage(p) => s.(page := p)
    case OpenModal => s.(isModalOpen := true)
    case CloseModal => s.(isModalOpen := false)
    case CancelForm => s.(isModalOpen := false)
  }

  function Run(s: ScreenState, evs: seq<Event>): ScreenState
    decreases |evs|
  {
    if evs == [] then s else Run(Step(s, evs[0]), evs[1..])
  }

  /** The query key of the list: the "notes" tag, the page, the debounced text. */
  function ListKey(s: ScreenState): (k: QueryKey)
    ensures |k| == 3 && k[0] == Text("notes")
    ensures Matches(NoteForm.NotesFilter, k)
  {
    [Text("notes"), Number(s.page), Text(s.debouncedSearch)]
  }

  /** The list request: page, page size 12, and the debounced text, never the raw text. */
  function FetchParams(s: ScreenState): (p: ListParams)
    ensures p.perPage == PerPage
    ensures p.page == s.page && p.search == s.debouncedSearch
  {
    ListParams(s.page, PerPage, s.debouncedSearch)
  }

  /** Two states share a cache entry exactly when they issue the same request. */
  lemma KeyIdentifiesRequest(s1: ScreenState, s2: ScreenState)
    ensures ListKey(s1) == ListKey(s2) <==> FetchParams(s1) == FetchParams(s2)
  {
  }

  /**
   * The form's invalidation reaches every list entry: whatever the page
   * and search, invalidating with the notes filter marks the entry stale.
   */
  lemma InvalidationCoversList(cache: map<QueryKey, bool>, s: ScreenState)
    requires ListKey(s) in cache
    ensures Invalidate(cache, NoteForm.NotesFilter)[ListKey(s)]
  {
  }

  /**
   * Typing alone changes only the raw text: page, debounced text, modal,
   * and so the list key and request, stay as they were.
   */
  lemma {:induction false} TypingKeepsQuery(s: ScreenState, evs: seq<Event>)
    requires forall i :: 0 <= i < |evs| ==> evs[i].TypeSearch?
    ensures Run(s, evs) == s.(search := Run(s, evs).search)
    ensures ListKey(Run(s, evs)) == ListKey(s)
    ensures FetchParams(Run(s, evs)) == FetchParams(s)
    ensures evs != [] ==> Run(s, evs).search == evs[|evs| - 1].text
    decreases |evs|
  {
    if evs != [] {
      TypingKeepsQuery(Step(s, evs[0]), evs[1..]);
      if |evs| > 1 {
        assert evs[1..][|evs[1..]| - 1] == evs[|evs| - 1];
      }
    }
  }

  /**
   * Typing and then the debounce ending: only the last text is searched.
   * The page resets to 1 when that text differs from the debounced text,
   * and stays as it was when it does not.
   */
  lemma TypeThenFlush(s: ScreenState, evs: seq<Event>)
    requires evs != []
    requires forall i :: 0 <= i < |evs| ==> evs[i].TypeSearch?
    ensures Step(Run(s, evs), DebounceFlush).debouncedSearch == evs[|evs| - 1].text
    ensures evs[|evs| - 1].text != s.debouncedSearch ==>
      FetchParams(Step(Run(s, evs), DebounceFlush)) == ListParams(1, PerPage, evs[|evs| - 1].text)
    ensures evs[|evs| - 1].text == s.debouncedSearch ==>
      && Step(Run(s, evs), DebounceFlush).page == s.page
      && FetchParams(Step(Run(s, evs), DebounceFlush)) == FetchParams(s)
  {
    TypingKeepsQuery(s, evs);
  }

  /** What the query reports for the current key. */
  datatype QueryStatus = QueryStatus(data: Option<NotesPage>, isLoading: bool, isError: bool)

  /** The elements of the screen, in document order. */
  datatype Element =
    | SearchBox(value: string)
    | CreateButton
    | LoadingText                               // "Loading..."
    | ErrorText                                 // "Error loading notes"
    | NoteList(notes: seq<Note>)
    | EmptyText                                 // "No notes found"
    | Pagination(pageCount: int, currentPage: int)
    | ModalWithForm                             // the modal holding the create form

  predicate HasNotes(q: QueryStatus)
  {
    q.data.Some? && |q.data.value.notes| > 0
  }

  predicate HasPages(q: QueryStatus)
  {
    q.data.Some? && q.data.value.totalPages > 1
  }

  /** The status lines: loading and error, each on its own flag. */
  function StatusLines(q: QueryStatus): (r: seq<Element>)
    ensures LoadingText in r <==> q.isLoading
    ensures ErrorText in r <==> q.isError
    ensures forall e :: e in r ==> e == LoadingText || e == ErrorText
  {
    (if q.isLoading then [LoadingText] else []) + (if q.isError then [ErrorText] else [])
  }

  /** The list when there are notes, else the empty text unless loading. */
  function Listing(q: QueryStatus): (r: seq<Element>)
    ensures HasNotes(q) ==> r == [NoteList(q.data.value.notes)]
    ensures !HasNotes(q) ==> (EmptyText in r <==> !q.isLoading)
    ensures forall e :: e in r ==> e.NoteList? || e == EmptyText
  {
    if HasNotes(q) then [NoteList(q.data.value.notes)]
    else if !q.isLoading then [EmptyText] else []
  }

  /** The pagination control, for more than one page, on the current page. */
  function Pager(s: ScreenState, q: QueryStatus): (r: seq<Element>)
    ensures HasPages(q) ==> r == [Pagination(q.data.value.totalPages, s.page)]
    ensures !HasPages(q) ==> r == []
  {
    if HasPages(q) then [Pagination(q.data.value.totalPages, s.page)] else []
  }

  /** The modal with the form inside it, while the modal is open. */
  function ModalPart(s: ScreenState): (r: seq<Element>)
    ensures ModalWithForm in r <==> s.isModalOpen
    ensures forall e :: e in r ==> e == ModalWithForm
  {
    if s.isModalOpen then [ModalWithForm] else []
  }

  function Render(s: ScreenState, q: QueryStatus): (r: seq<Element>)
    ensures |r| >= 2 && r[0] == SearchBox(s.search) && r[1] == CreateButton
    ensures LoadingText in r <==> q.isLoading
    ensures ErrorText in r <==> q.isError
    ensures ModalWithForm in r <==> s.isModalOpen
  {
    var toolbar := [SearchBox(s.search), CreateButton];
    var status := StatusLines(q);
    var listing := Listing(q);
    var pager := Pager(s, q);
    var modal := ModalPart(s);
    assert forall e :: e in toolbar + status + listing + pager + modal <==>
      e in toolbar || e in status || e in listing || e in pager || e in modal;
    toolbar + status + listing + pager + modal
  }

  /** The note list shows exactly the fetched notes, when there are any; otherwise the empty text shows unless loading. */
  lemma RenderListing(s: ScreenState, q: QueryStatus)
    ensures HasNotes(q) ==> NoteList(q.data.value.notes) in Render(s, q)
    ensures forall e :: e in Render(s, q) && e.NoteList? ==> HasNotes(q) && e.notes == q.data.value.notes
    ensures EmptyText in Render(s, q) <==> !HasNotes(q) && !q.isLoading
  {
  }

  /** Pagination shows for more than one page, with the page count and the current page. */
  lemma RenderPagination(s: ScreenState, q: QueryStatus)
    ensures HasPages(q) ==> Pagination(q.data.value.totalPages, s.page) in Render(s, q)
    ensures forall e :: e in Render(s, q) && e.Pagination? ==>
              HasPages(q) && e.pageCount == q.data.value.totalPages && e.currentPage == s.page
  {
  }

  /** An error with no data and no loading shows the error text and the empty text together. */
  lemma ErrorShowsBesideEmpty(s: ScreenState)
    ensures var r := Render(s, QueryStatus(None, false, true));
      ErrorText in r && EmptyText in r && LoadingText !in r
  {
  }

  /** A single page of results renders no pagination. */
  lemma OnePageNoPagination(s: ScreenState, notes: seq<Note>, isLoading: bool, isError: bool)
    ensures forall e :: e in Render(s, QueryStatus(Some(NotesPage(notes, 1)), isLoading, isError)) ==> !e.Pagination?
  {
  }

  /**
   * The screen as a stateful object: useState cells updated by the
   * handlers, with the debounced value and the page-reset effect.
   */
  class NotesScreen {
    var page: int
    var search: string
    var debouncedSearch: string
    var isModalOpen: bool

    function State(): ScreenState
      reads this
    {
      ScreenState(page, search, debouncedSearch, isModalOpen)
    }

    constructor ()
      ensures State() == Initial
    {
      page, search, debouncedSearch, isModalOpen := 1, "", "", false;
    }

    /** setSearch from the search box. */
    method TypeSearch(text: string)
      modifies this
      ensures State() == Step(old(State()), Event.TypeSearch(text))
    {
      search := text;
    }

    /** The debounced value catches up; the effect on it resets the page. */
    method DebounceFlush()
      modifies this
      ensures State() == Step(old(State()), Event.DebounceFlush)
    {
      if debouncedSearch != search {
        debouncedSearch := search;
        page := 1;
      }
    }

    /** setPage from the pagination control. */
    method SelectPage(p: int)
      modifies this
      ensures State() == Step(old(State()), Event.SelectPage(p))
    {
      page := p;
    }

    method OpenModal()
      modifies this
      ensures State() == Step(old(State()), Event.OpenModal)
    {
      isModalOpen := true;
    }

    /** The modal's onClose and the form's onCancel: both close the modal. */
    method CloseModal()
      modifies this
      ensures State() == Step(old(State()), Event.CloseModal)
      ensures State() == Step(old(State()), Event.CancelForm)
    {
      isModalOpen := false;
    }
  }
}
