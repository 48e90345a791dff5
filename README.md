# NoteHub client: verified model of the list screen, the create form and the modal

NoteHub is a client-side notes browser. The notes screen lists notes page by
page, filters them by a debounced search text, and opens a modal with a
create-note form. This project models three pieces of its client logic in
Dafny and proves what they promise:

- **The create-note form** (`components/NoteForm/NoteForm.tsx`). The
  validation schema becomes one predicate per rule. `NoteFormSchema` holds the
  five tags, the title, content and tag rules and the request body. `NoteForm`
  holds the submission flow as a pure step function (`NoteForm.Step`) over the
  form state: the values, the "submitting" flag, the "pending" flag of the
  create request, the request bodies sent, and the side effects on the page
  (query invalidation and `onCancel` calls). The class
  `NoteForm.NoteFormSession` performs each event in place. Each of its
  methods is proved to make exactly the change `Step` describes.
- **The notes listing screen** (`app/notes/Notes.client.tsx`). The state is
  the page, the raw search text, the debounced search text and whether the
  modal is open. `NotesClient.Step` handles the events. The class
  `NotesClient.NotesScreen` holds the state cells and is proved against
  `Step`. The query key, the list request and the render decision are pure
  functions of that state and of the query's outcome.
- **The modal shell** (`components/Modal/Modal.tsx`). The page-level state the
  modal touches is the class `Modal.Document`: the body's `overflow` style,
  the window's keydown listeners, and a record of every `onClose` call. The
  class `Modal.ModalComponent` models the effect's setup, its cleanup, its
  re-run when `onClose` changes, and the backdrop click. The keydown dispatch
  is a loop over the registered listeners, proved against `Modal.KeyDownCalls`.

`QueryKeys` models query keys as sequences of parts. It states prefix matching
and invalidation ("mark stale every cached key the filter is a prefix of").

Modelling choices:
- The tag select reports a raw string. `NoteFormSchema.ParseTag` reads it back
  as the `Tag` datatype, and the tag rule accepts exactly the five names.
- The min and max rules measure a string as JavaScript does: in UTF-16 code
  units (`NoteFormSchema.Utf16Length`). A character above U+FFFF counts twice.
- A field's result is the SET of its failing rules. For a non-empty title this
  set has at most one element, so its message is fixed. For an empty title the
  set holds `TitleRequired` and `TitleMin`. Which of the two messages the form
  library displays is not fixed by the model.
- The create call, the list fetch and the debounce timer are outside the model.
  A create request is recorded by its body. Its outcome is the `Settled(success)`
  event. The end of the debounce period is the `DebounceFlush` event.
- Callbacks (`onClose`, `onCancel`) are identified by numbers. Their calls are
  recorded in order.

The model follows the code where it differs from what a user would expect:
- The code resets the form right after handing the values to the create call,
  whatever the outcome (NoteForm.tsx:60). A failed create therefore loses the
  entered values, and the user cannot simply retry.
- The code never restores `document.body.style.overflow` (Modal.tsx:19-24).
  After the modal closes, the page stays unscrollable.
- The screen shows the loading text and the error text on their own flags
  (Notes.client.tsx:46-47). "No notes found" shows whenever there are no notes
  and nothing is loading, so an error with no data shows both texts. The
  loading, error, empty and populated states are not exclusive.

## Model

| member | source | states |
|---|---|---|
| `QueryKeys.Invalidate` | components/NoteForm/NoteForm.tsx:39 | Invalidation keeps every cache entry, marks stale every key the filter is a prefix of, and leaves the stale flag of every other key unchanged |
| `NoteFormSchema.ParseTag` | components/NoteForm/NoteForm.tsx:9-20 | A raw tag value is read as a tag if and only if it is one of the five names Todo, Work, Personal, Meeting, Shopping, and the tag read back carries that name |
| `NoteFormSchema.TagNameRoundTrip` | components/NoteForm/NoteForm.tsx:9-10 | Every tag's name is among the five listed names and reads back as the same tag |
| `NoteFormSchema.Utf16Length` | components/NoteForm/NoteForm.tsx:14-17 | The length the rules measure lies between the number of characters and twice that, is 0 only for the empty string, and equals the number of characters when none lies above U+FFFF |
| `NoteFormSchema.Utf16LengthOfAstral` | components/NoteForm/NoteForm.tsx:13-16 | Two characters above U+FFFF measure 4 units, which makes a valid title |
| `NoteFormSchema.TitleErrors` | components/NoteForm/NoteForm.tsx:13-16 | The title has no failing rule iff its UTF-16 length is in [3, 50]; UTF-16 length 1 or 2 fails exactly the minimum rule; length over 50 fails exactly the maximum rule; an empty title fails "required"; a non-empty title fails at most one rule |
| `NoteFormSchema.TitleMessages` | components/NoteForm/NoteForm.tsx:13-16 | A title of UTF-16 length 1 or 2 shows exactly "Minimum 3 characters", one over 50 exactly "Maximum 50 characters", an empty one "Required" among its messages, a title in [3, 50] none |
| `NoteFormSchema.ContentErrors` | components/NoteForm/NoteForm.tsx:17 | Content is accepted iff its UTF-16 length is at most 500, empty content included; longer content fails exactly the maximum rule |
| `NoteFormSchema.ContentMessages` | components/NoteForm/NoteForm.tsx:17 | Content over 500 UTF-16 units shows exactly "Maximum 500 characters"; any other content shows no message |
| `NoteFormSchema.TagErrors` | components/NoteForm/NoteForm.tsx:18-20 | The tag has no failing rule iff it is one of the five names, that is iff it reads back as a tag |
| `NoteFormSchema.Errors` | components/NoteForm/NoteForm.tsx:12-21 | Each field's errors are that field's rules applied to that field's value alone |
| `NoteFormSchema.ValidIff` | components/NoteForm/NoteForm.tsx:12-21 | The form is valid iff the title's UTF-16 length is in [3, 50], the content's is at most 500, and the tag is one of the five names |
| `NoteFormSchema.ToPayload` | components/NoteForm/NoteForm.tsx:55-59 | The request body built from valid values has the entered title, content and tag, and lies within the schema's bounds |
| `NoteFormSchema.InitialFailsOnTitleOnly` | components/NoteForm/NoteForm.tsx:44-48 | The initial values ("", "", Todo) are invalid; the title fails "required"; content and tag have no errors |
| `NoteForm.SubmitButtonFor` | components/NoteForm/NoteForm.tsx:128-130 | The submit button is disabled iff the request is pending or the form is submitting; its label is "Creating..." iff pending, otherwise "Create note" |
| `NoteForm.PendingLabelOnlyWhenDisabled` | components/NoteForm/NoteForm.tsx:128-130 | The pending label only appears on a disabled button |
| `NoteForm.Step` | components/NoteForm/NoteForm.tsx:36-61 | The request history only grows, by at most one body per event; a body is sent only when validation of a submission finishes on valid values, and it is the entered values; at that moment the form is reset and the request is pending; side effects change only by one onCancel call on cancel, or by an invalidation with ["notes"] then one onCancel call when a pending request succeeds; pressing a disabled submit button changes nothing |
| `NoteForm.StepKeepsConsistent` | components/NoteForm/NoteForm.tsx:54-61 | One event keeps the form consistent: never submitting while pending, every request body within the schema's bounds, every invalidation made with ["notes"] |
| `NoteForm.RunKeepsConsistent` | components/NoteForm/NoteForm.tsx:36-61 | Every state reached by any sequence of events from a consistent state (the initial one among them) is consistent, so no invalid values ever reach the create call |
| `NoteForm.InvalidValuesAreNotSent` | components/NoteForm/NoteForm.tsx:51-61 | Submitting invalid values sends nothing, keeps the entered values, and ends the submission |
| `NoteForm.SubmitFlow` | components/NoteForm/NoteForm.tsx:38-61 | Submitting valid values from an idle form sends exactly the entered title, content and tag, resets the form at once, and shows a disabled "Creating..." button; a success then invalidates ["notes"] and calls onCancel once; a failure adds no effect and re-enables "Create note"; in both cases the form keeps its initial values |
| `NoteForm.StepIntended` | components/NoteForm/NoteForm.tsx:54-61 | The corrected flow keeps the entered values through the finish of validation and through a failed create, while sending the same body |
| `NoteForm.IntendedKeepsValuesOnFailure` | components/NoteForm/NoteForm.tsx:54-61 | With the corrected flow a failed create leaves the entered values; a successful one resets the form and has the same side effects as the code |
| `NoteForm.NoteFormSession.constructor` | components/NoteForm/NoteForm.tsx:44-48 | A new form holds the initial values, is neither submitting nor pending, and has sent nothing |
| `NoteForm.NoteFormSession.Button` | components/NoteForm/NoteForm.tsx:125-131 | The rendered submit button is disabled iff pending or submitting, labelled "Creating..." iff pending |
| `NoteForm.NoteFormSession.Edit` | components/NoteForm/NoteForm.tsx:65-115 | Editing the fields replaces the values and nothing else |
| `NoteForm.NoteFormSession.ClickSubmit` | components/NoteForm/NoteForm.tsx:125-129 | Pressing submit starts a submission unless the button is disabled |
| `NoteForm.NoteFormSession.FinishValidation` | components/NoteForm/NoteForm.tsx:54-61 | When validation passes, the entered values are sent, the request becomes pending and the form is reset; when it fails, only the submission ends |
| `NoteForm.NoteFormSession.Settle` | components/NoteForm/NoteForm.tsx:36-41 | A pending request that succeeds invalidates ["notes"] and then calls onCancel; any settled request stops being pending |
| `NoteForm.NoteFormSession.ClickCancel` | components/NoteForm/NoteForm.tsx:118-121 | The cancel button calls onCancel once and changes nothing else |
| `NoteForm.FailedCreateDiscardsValues` | components/NoteForm/NoteForm.tsx:54-61 | After a valid submission whose create fails, the body was sent and the form holds the initial values, not the entered ones |
| `NotesClient.Step` | app/notes/Notes.client.tsx:17-65 | Only a flush changes the debounced text, to the raw text, and then the page is 1; the page changes only by a page selection, or by a flush that changes the debounced text, which sets page 1; only typing changes the raw text; only the three modal events change the modal flag; the create button opens it, onClose and onCancel close it |
| `NotesClient.ListKey` | app/notes/Notes.client.tsx:27 | The list key has three parts and starts with "notes", so the form's invalidation filter ["notes"] is a prefix of it |
| `NotesClient.FetchParams` | app/notes/Notes.client.tsx:28-29 | The list request asks for the current page, 12 per page, and the debounced text |
| `NotesClient.KeyIdentifiesRequest` | app/notes/Notes.client.tsx:27-29 | Two states have the same list key iff they issue the same list request |
| `NotesClient.InvalidationCoversList` | app/notes/Notes.client.tsx:27 | Invalidating with the form's filter marks the current list entry stale, whatever the page and search text |
| `NotesClient.TypingKeepsQuery` | app/notes/Notes.client.tsx:19-36 | Any sequence of typing changes only the raw text, to the last text typed; the list key and request stay the same |
| `NotesClient.TypeThenFlush` | app/notes/Notes.client.tsx:19-29 | After typing and the end of the debounce period the debounced text is the last text typed. When that text differs from the earlier debounced text, the request searches it on page 1. When it is the same, the page and the request stay as they were |
| `NotesClient.StatusLines` | app/notes/Notes.client.tsx:46-47 | The loading text appears iff loading, the error text iff the query failed, each on its own |
| `NotesClient.Listing` | app/notes/Notes.client.tsx:49-53 | With notes, the list of exactly those notes; without, "No notes found" iff not loading |
| `NotesClient.Pager` | app/notes/Notes.client.tsx:55-61 | The pagination control appears iff there is data with more than one page, with the page count and the current page |
| `NotesClient.ModalPart` | app/notes/Notes.client.tsx:63-67 | The modal with the form appears iff the modal is open |
| `NotesClient.Render` | app/notes/Notes.client.tsx:34-67 | The screen starts with the search box showing the raw text and the create button; the loading text appears iff loading, the error text iff failed, the modal with the form iff open |
| `NotesClient.RenderListing` | app/notes/Notes.client.tsx:49-53 | The note list appears iff there is data with at least one note, and shows exactly those notes; "No notes found" appears iff there are no notes and nothing is loading |
| `NotesClient.RenderPagination` | app/notes/Notes.client.tsx:55-61 | Pagination appears iff there is data with more than one page, and it gets the page count and the current page |
| `NotesClient.ErrorShowsBesideEmpty` | app/notes/Notes.client.tsx:46-53 | A failed query with no data and no loading shows both the error text and "No notes found" |
| `NotesClient.OnePageNoPagination` | app/notes/Notes.client.tsx:55 | A single page of results renders no pagination control |
| `NotesClient.NotesScreen.constructor` | app/notes/Notes.client.tsx:17-20 | The screen starts on page 1 with empty raw and debounced text and the modal closed |
| `NotesClient.NotesScreen.TypeSearch` | app/notes/Notes.client.tsx:36 | Typing sets the raw text and nothing else |
| `NotesClient.NotesScreen.DebounceFlush` | app/notes/Notes.client.tsx:19-24 | When the debounce period ends with new text, the debounced text takes it and the page resets to 1; otherwise nothing changes |
| `NotesClient.NotesScreen.SelectPage` | app/notes/Notes.client.tsx:59 | The pagination control's page change sets the page and nothing else |
| `NotesClient.NotesScreen.OpenModal` | app/notes/Notes.client.tsx:40 | The create button opens the modal |
| `NotesClient.NotesScreen.CloseModal` | app/notes/Notes.client.tsx:64-65 | The modal's onClose and the form's onCancel both close the modal and change nothing else |
| `Modal.HandleKeyDown` | components/Modal/Modal.tsx:13-17 | Escape calls the handler's onClose exactly once; any other key calls nothing |
| `Modal.OnlyEscapeCalls` | components/Modal/Modal.tsx:13-17 | A keydown other than Escape calls nothing, whatever listeners are registered |
| `Modal.EscapeCallsEach` | components/Modal/Modal.tsx:13-21 | An Escape keydown calls each registered listener's onClose once, in registration order |
| `Modal.HandleBackdropClick` | components/Modal/Modal.tsx:27-31 | A click calls onClose exactly once iff its target is the element the handler sits on, and otherwise calls nothing |
| `Modal.ClickClosesOnlyOnBackdrop` | components/Modal/Modal.tsx:27-36 | A click that bubbles to the backdrop from the content, or from inside it, calls nothing; a click on the backdrop calls onClose |
| `Modal.Document.AddKeyDownListener` | components/Modal/Modal.tsx:21 | A listener is registered at the end, unless it is registered already |
| `Modal.Document.RemoveKeyDownListener` | components/Modal/Modal.tsx:23 | Removing a listener keeps every other listener, in order, and nothing else changes |
| `Modal.Document.DispatchKeyDown` | components/Modal/Modal.tsx:13-21 | A keydown makes exactly the calls of every registered listener's handler, in order, and changes nothing else |
| `Modal.ModalComponent.Mount` | components/Modal/Modal.tsx:12-21 | Mounting hides the page's scroll and registers one new keydown listener, over this onClose, and calls nothing |
| `Modal.ModalComponent.Cleanup` | components/Modal/Modal.tsx:22-24 | Cleanup removes the effect's listener and changes nothing else; the overflow stays as it was |
| `Modal.ModalComponent.Rerender` | components/Modal/Modal.tsx:12-25 | A new onClose replaces the old listener by one new listener over the new onClose; the same onClose changes nothing |
| `Modal.ModalComponent.ClickBackdrop` | components/Modal/Modal.tsx:27-35 | A click reaching the backdrop makes the handler's calls and changes nothing else |
| `Modal.EscapeClosesOnce` | components/Modal/Modal.tsx:12-21 | With the modal mounted, an Escape press calls onClose exactly once |
| `Modal.OtherKeyDoesNothing` | components/Modal/Modal.tsx:13-17 | With the modal mounted, any other key calls nothing |
| `Modal.EscapeAfterUnmount` | components/Modal/Modal.tsx:22-24 | After the modal unmounts no listener is left, and Escape calls nothing |
| `Modal.RerunKeepsOneListener` | components/Modal/Modal.tsx:12-25 | After the effect re-runs for a new onClose exactly one listener is registered, and Escape calls the new onClose once |
| `Modal.ClickScenario` | components/Modal/Modal.tsx:27-36 | A click inside the content calls nothing; a click on the backdrop calls onClose once |
| `Modal.OverflowAfterClose` | components/Modal/Modal.tsx:19-24 | While the modal is open the overflow is "hidden", and after it closes it is still "hidden", whatever it was before |
| `Modal.RestoringModal.Mount` | components/Modal/Modal.tsx:19-21 | The corrected setup saves the overflow it finds, hides the scroll and registers one listener |
| `Modal.RestoringModal.Cleanup` | components/Modal/Modal.tsx:22-24 | The corrected cleanup removes the listener and puts back the saved overflow |
| `Modal.OverflowAfterCloseRestored` | components/Modal/Modal.tsx:19-24 | With the corrected effect the overflow is "hidden" while open and back to its earlier value after closing |

## Findings

| source | as written | input that shows it | evidently intended | confidence | as-written member | corrected member |
|---|---|---|---|---|---|---|
| components/Modal/Modal.tsx:19-24 | setup sets `overflow` to "hidden"; cleanup only removes the listener | open and close the modal on a page whose overflow was "" | cleanup restores the overflow found at setup, so the page scrolls again | high (not executed) | `Modal.OverflowAfterClose` | `Modal.OverflowAfterCloseRestored` |
| components/NoteForm/NoteForm.tsx:54-61 | `resetForm()` runs right after `mutate(...)`, before the create settles | valid values ("Buy milk", "", "Shopping") whose create fails | keep the entered values until the create succeeds, so the user can retry | medium (not executed) | `NoteForm.FailedCreateDiscardsValues` | `NoteForm.IntendedKeepsValuesOnFailure` |

The rest of the model follows the code as written. The corrected members stand
beside it.

## Left out

- lib/api.ts: the HTTP calls (`createNote`, `fetchNotes`) and the process-wide
  client defaults are network I/O. A create is recorded by its body
  (`NoteForm.FormState.requests`). A list request is described by
  `NotesClient.FetchParams`.
- components/Header/Header.tsx: static navigation markup.
- types/note.ts is not part of this model. `NotesClient.Note` takes its fields
  from the notes service's note record.
- The query library's caching, `keepPreviousData`, request coalescing and
  refetching. The render function takes `data`, `isLoading` and `isError` as
  inputs. Invalidation is modelled as marking keys stale (`QueryKeys.Invalidate`).
- The 500 ms debounce timer. Its firing is the `DebounceFlush` event, which
  happens at once with the page-reset effect. The render between the two, whose
  key pairs the old page with the new text, is not modelled.
- The tag's "required" rule is not a separate rule. The select only offers
  the five names, so a tag outside them fails `oneOf`.
- The form library's internals: when errors are displayed (touched fields,
  validation on change and blur), its conversion of "" to "missing", and which
  message it shows for an empty title. Validation runs on the values current
  when the submission's validation finishes.
- The initial mount effect of the screen (`setPage(1)` with page already 1)
  changes nothing and is not a separate event.
- The closing of the modal after a successful create reaches the screen as the
  `CancelForm` event. The unmounting of the form is not modelled.
- Markup, styles and layout, and event propagation beyond the backdrop
  handler's `target == currentTarget` test.
- The pagination component is not part of this model. A selected page is
  taken as given (any integer), as the screen does not check it.
