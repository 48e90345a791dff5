/**
 * The create-note form's submission flow. The form holds its values and an
 * "is submitting" flag; the create request has an "is pending" flag. The
 * request bodies handed to the create call and the side effects on the rest
 * of the page (query invalidation, the host's onCancel) are recorded, in
 * order, as part of the state.
 */
module NoteForm {
  import opened QueryKeys
  import opened NoteFormSchema

  /** The filter key a successful create invalidates with. */
  const NotesFilter: QueryKey := [Text("notes")]

  /** A side effect of the form on the rest of the page. */
  datatype Effect = InvalidateQueries(filter: QueryKey) | CallOnCancel

  /** What the submit button shows: whether it is disabled, and its label. */
  datatype SubmitButton = SubmitButton(disabled: bool, text: string)

  function SubmitButtonFor(isPending: bool, isSubmitting: bool): (b: SubmitButton)
    ensures b.disabled <==> isPending || isSubmitting
    ensures b.text == "Creating..." <==> isPending
    ensures !isPending ==> b.text == "Create note"
  {
    SubmitButton(isPending || isSubmitting, if isPending then "Creating..." else "Create note")
  }

  /** The pending label is only ever shown on a disabled button. */
  lemma PendingLabelOnlyWhenDisabled(isPending: bool, isSubmitting: bool)
    ensures SubmitButtonFor(isPending, isSubmitting).text == "Creating..." ==>
            SubmitButtonFor(isPending, isSubmitting).disabled
  {
  }

  datatype FormState = FormState(
    values: FormValues,
    isSubmitting: bool,
    isPending: bool,
    requests: seq<Payload>,   // bodies handed to the create call, oldest first
    effects: seq<Effect>)     // invalidations and onCancel calls, oldest first

  const Initial := FormState(InitialValues, false, false, [], [])

  datatype Event =
    | Edit(values: FormValues)   // the user changes the fields
    | ClickSubmit                // the submit button is pressed
    | ValidationDone             // the form's validation of a submission completes
    | Settled(success: bool)     // the create request succeeds or fails
    | ClickCancel                // the cancel button is pressed

  /** One event of the form as the code handles it. */
  function Step(s: FormState, e: Event): (r: FormState)
    ensures |s.requests| <= |r.requests| <= |s.requests| + 1
    ensures r.requests[..|s.requests|] == s.requests
    ensures |r.requests| > |s.requests| ==>
      && e == ValidationDone && s.isSubmitting && IsValid(s.values)
      && r.requests == s.requests + [ToPayload(s.values)]
      && r.isPending && r.values == InitialValues
    ensures r.effects != s.effects ==>
      || (e == ClickCancel && r.effects == s.effects + [CallOnCancel])
      || (e == Settled(true) && s.isPending && !r.isPending
          && r.effects == s.effects + [InvalidateQueries(NotesFilter), CallOnCancel])
    ensures e == ClickSubmit && SubmitButtonFor(s.isPending, s.isSubmitting).disabled ==> r == s
  {
    match e
    case Edit(v) => s.(values := v)
    case ClickSubmit =>
      if SubmitButtonFor(s.isPending, s.isSubmitting).disabled then s
      else s.(isSubmitting := true)
    case ValidationDone =>
      if !s.isSubmitting then s
      else if IsValid(s.values) then
        // mutate(...) then resetForm()
        s.(requests := s.requests + [ToPayload(s.values)], isPending := true,
           values := InitialValues, isSubmitting := false)
      else s.(isSubmitting := false)
    case Settled(success) =>
      if !s.isPending then s
      else if success then
        s.(isPending := false, effects := s.effects + [InvalidateQueries(NotesFilter), CallOnCancel])
      else s.(isPending := false)
    case ClickCancel => s.(effects := s.effects + [CallOnCancel])
  }

  function Run(s: FormState, evs: seq<Event>): FormState
    decreases |evs|
  {
    if evs == [] then s else Run(Step(s, evs[0]), evs[1..])
  }

  /**
   * What holds of every state the form reaches: never submitting while a
   * request is pending, every request body within the schema's bounds, and
   * every invalidation made with the notes filter.
   */
  predicate Consistent(s: FormState)
  {
    && !(s.isSubmitting && s.isPending)
    && (forall i :: 0 <= i < |s.requests| ==> PayloadWithinBounds(s.requests[i]))
    && (forall i :: 0 <= i < |s.effects| ==>
          s.effects[i].InvalidateQueries? ==> s.effects[i].filter == NotesFilter)
  }

  lemma StepKeepsConsistent(s: FormState, e: Event)
    requires Consistent(s)
    ensures Consistent(Step(s, e))
  {
  }

  /** Every state reached from a consistent one is consistent: in particular from Initial. */
  lemma {:induction false} RunKeepsConsistent(s: FormState, evs: seq<Event>)
    requires Consistent(s)
    ensures Consistent(Run(s, evs))
    decreases |evs|
  {
    if evs != [] {
      StepKeepsConsistent(s, evs[0]);
      RunKeepsConsistent(Step(s, evs[0]), evs[1..]);
    }
  }

  /** Invalid values never reach the create call, and stay in the form. */
  lemma InvalidValuesAreNotSent(s: FormState, v: FormValues)
    requires !s.isPending && !s.isSubmitting
    requires !IsValid(v)
    ensures Run(s, [Edit(v), ClickSubmit, ValidationDone]).requests == s.requests
    ensures Run(s, [Edit(v), ClickSubmit, ValidationDone]).values == v
    ensures !Run(s, [Edit(v), ClickSubmit, ValidationDone]).isSubmitting
  {
    var s1 := Step(s, Edit(v));
    var s2 := Step(s1, ClickSubmit);
    assert Run(s, [Edit(v), ClickSubmit, ValidationDone]) == Run(s2, [ValidationDone]) by {
      assert [Edit(v), ClickSubmit, ValidationDone][1..] == [ClickSubmit, ValidationDone];
      assert [ClickSubmit, ValidationDone][1..] == [ValidationDone];
    }
  }

  /**
   * Submitting valid values from an idle form sends exactly the entered
   * values and resets the form at once; while the request is out the
   * button is disabled and relabelled. Whatever the outcome the form keeps
   * its initial values; a success invalidates the notes queries and then
   * calls onCancel, once.
   */
  lemma SubmitFlow(s: FormState, v: FormValues)
    requires !s.isPending && !s.isSubmitting
    requires IsValid(v)
    ensures var s3 := Run(s, [Edit(v), ClickSubmit, ValidationDone]);
      && s3.requests == s.requests + [Payload(v.title, v.content, ParseTag(v.tag).value)]
      && s3.values == InitialValues
      && SubmitButtonFor(s3.isPending, s3.isSubmitting) == SubmitButton(true, "Creating...")
      && Step(s3, Settled(true)).effects == s.effects + [InvalidateQueries(NotesFilter), CallOnCancel]
      && Step(s3, Settled(true)).values == InitialValues
      && Step(s3, Settled(false)).effects == s.effects
      && Step(s3, Settled(false)).values == InitialValues
      && SubmitButtonFor(Step(s3, Settled(false)).isPending, Step(s3, Settled(false)).isSubmitting)
         == SubmitButton(false, "Create note")
  {
    var s1 := Step(s, Edit(v));
    var s2 := Step(s1, ClickSubmit);
    assert Run(s, [Edit(v), ClickSubmit, ValidationDone]) == Run(s2, [ValidationDone]) by {
      assert [Edit(v), ClickSubmit, ValidationDone][1..] == [ClickSubmit, ValidationDone];
      assert [ClickSubmit, ValidationDone][1..] == [ValidationDone];
    }
  }

  /**
   * The submission flow that keeps the entered values until the create
   * succeeds, so a failed create can be retried.
   */
  function StepIntended(s: FormState, e: Event): (r: FormState)
    ensures e == Settled(false) ==> r.values == s.values
    ensures e == ValidationDone ==> r.values == s.values
    ensures e == ValidationDone && s.isSubmitting && IsValid(s.values) ==>
      r.requests == s.requests + [ToPayload(s.values)] && r.isPending
  {
    match e
    case ValidationDone =>
      if s.isSubmitting && IsValid(s.values) then
        s.(requests := s.requests + [ToPayload(s.values)], isPending := true, isSubmitting := false)
      else Step(s, e)
    case Settled(success) =>
      if s.isPending && success then Step(s, e).(values := InitialValues) else Step(s, e)
    case _ => Step(s, e)
  }

  /** With the intended flow a failed create leaves the entered values for a retry. */
  lemma IntendedKeepsValuesOnFailure(s: FormState, v: FormValues)
    requires !s.isPending && !s.isSubmitting
    requires IsValid(v)
    ensures var s3 := StepIntended(StepIntended(StepIntended(s, Edit(v)), ClickSubmit), ValidationDone);
      && s3.requests == s.requests + [ToPayload(v)]
      && StepIntended(s3, Settled(false)).values == v
      && StepIntended(s3, Settled(true)).values == InitialValues
      && StepIntended(s3, Settled(true)).effects == s.effects + [InvalidateQueries(NotesFilter), CallOnCancel]
  {
  }

  /** The form as a stateful object: each handler performs one event. */
  class NoteFormSession {
    var values: FormValues
    var isSubmitting: bool
    var isPending: bool
    var requests: seq<Payload>
    var effects: seq<Effect>

    function State(): FormState
      reads this
    {
      FormState(values, isSubmitting, isPending, requests, effects)
    }

    constructor ()
      ensures State() == Initial
    {
      values, isSubmitting, isPending := InitialValues, false, false;
      requests, effects := [], [];
    }

    /** The submit button as rendered now. */
    function Button(): (b: SubmitButton)
      reads this
      ensures b.disabled <==> isPending || isSubmitting
      ensures b.text == (if isPending then "Creating..." else "Create note")
    {
      SubmitButtonFor(isPending, isSubmitting)
    }

    method Edit(v: FormValues)
      modifies this
      ensures State() == Step(old(State()), Event.Edit(v))
    {
      values := v;
    }

    method ClickSubmit()
      modifies this
      ensures State() == Step(old(State()), Event.ClickSubmit)
    {
      if !(isPending || isSubmitting) {
        isSubmitting := true;
      }
    }

    /** The form's onSubmit once validation has passed, or the blocked submission. */
    method FinishValidation()
      modifies this
      ensures State() == Step(old(State()), ValidationDone)
    {
      if isSubmitting {
        if IsValid(values) {
          requests := requests + [ToPayload(values)];
          isPending := true;
          values := InitialValues;
        }
        isSubmitting := false;
      }
    }

    /** The create request settles; on success, onSuccess runs. */
    method Settle(success: bool)
      modifies this
      ensures State() == Step(old(State()), Settled(success))
    {
      if isPending {
        if success {
          effects := effects + [InvalidateQueries(NotesFilter)];
          effects := effects + [CallOnCancel];
        }
        isPending := false;
      }
    }

    method ClickCancel()
      modifies this
      ensures State() == Step(old(State()), Event.ClickCancel)
    {
      effects := effects + [CallOnCancel];
    }
  }

  /** A create that fails after the reset leaves the form with its initial values. */
  method FailedCreateDiscardsValues(v: FormValues) returns (after: FormValues, sent: seq<Payload>)
    requires IsValid(v)
    ensures sent == [ToPayload(v)]
    ensures after == InitialValues
  {
    var form := new NoteFormSession();
    form.Edit(v);
    form.ClickSubmit();
    form.FinishValidation();
    form.Settle(false);
    after, sent := form.values, form.requests;
  }
}
