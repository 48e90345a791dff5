/**
 * The create-note form's validation schema, written out as one predicate
 * per rule. Each field is checked on its own value only; a field's result
 * is the set of its rules that fail, in the schema's terms.
 */
module NoteFormSchema {
  import opened Wrappers

  /** The five tags a note may carry. */
  datatype Tag = Todo | Work | Personal | Meeting | Shopping

  /** The tag names, in the order the form lists them. */
  const TagNames: seq<string> := ["Todo", "Work", "Personal", "Meeting", "Shopping"]

  function TagName(t: Tag): string
  {
    match t
    case Todo => "Todo"
    case Work => "Work"
    case Personal => "Personal"
    case Meeting => "Meeting"
    case Shopping => "Shopping"
  }

  /** Reads the raw value of the tag select back as a tag, if it names one. */
  function ParseTag(raw: string): (r: Option<Tag>)
    ensures r.Some? <==> raw in TagNames
    ensures r.Some? ==> TagName(r.value) == raw
  {
    if raw == "Todo" then Some(Todo)
    else if raw == "Work" then Some(Work)
    else if raw == "Personal" then Some(Personal)
    else if raw == "Meeting" then Some(Meeting)
    else if raw == "Shopping" then Some(Shopping)
    else None
  }

  /** Every tag's name is listed, and reads back as that tag. */
  lemma TagNameRoundTrip(t: Tag)
    ensures TagName(t) in TagNames
    ensures ParseTag(TagName(t)) == Some(t)
  {
  }

  /** One rule of the schema, named by field and check. */
  datatype Rule =
    | TitleMin        // title shorter than 3
    | TitleMax        // title longer than 50
    | TitleRequired   // title missing
    | ContentMax      // content longer than 500
    | TagOneOf        // tag not among the five names

  const TitleMinLength := 3
  const TitleMaxLength := 50
  const ContentMaxLength := 500

  /** The message a failing rule carries. */
  function Message(rule: Rule): string
  {
    match rule
    case TitleMin => "Minimum 3 characters"
    case TitleMax => "Maximum 50 characters"
    case TitleRequired => "Required"
    case ContentMax => "Maximum 500 characters"
    // the schema gives no message of its own for oneOf: the library's default
    case TagOneOf => "tag must be one of the following values: Todo, Work, Personal, Meeting, Shopping"
  }

  /** The code units a character takes in UTF-16: two above the Basic Multilingual Plane. */
  function Utf16Units(c: char): nat
  {
    if c as int > 0xFFFF then 2 else 1
  }

  /**
   * The length the schema's min and max rules measure: the number of UTF-16
   * code units, as a JavaScript string's length counts them.
   */
  function Utf16Length(s: string): (n: nat)
    ensures |s| <= n <= 2 * |s|
    ensures n == 0 <==> s == []
    ensures (forall i :: 0 <= i < |s| ==> s[i] as int <= 0xFFFF) ==> n == |s|
    decreases |s|
  {
    if s == [] then 0 else Utf16Units(s[0]) + Utf16Length(s[1..])
  }

  /** Characters outside the Basic Multilingual Plane count twice: two of them make a valid title. */
  lemma Utf16LengthOfAstral()
    ensures Utf16Length("\U{1F600}\U{1F600}") == 4
    ensures TitleErrors("\U{1F600}\U{1F600}") == {}
  {
    assert "\U{1F600}\U{1F600}"[1..] == "\U{1F600}";
  }

  /** The messages a set of failing rules shows. */
  function Messages(rules: set<Rule>): set<string>
  {
    set rule | rule in rules :: Message(rule)
  }

  /** The messages a title of each length gets. */
  lemma TitleMessages(title: string)
    ensures 1 <= Utf16Length(title) < TitleMinLength ==> Messages(TitleErrors(title)) == {"Minimum 3 characters"}
    ensures Utf16Length(title) > TitleMaxLength ==> Messages(TitleErrors(title)) == {"Maximum 50 characters"}
    ensures Utf16Length(title) == 0 ==> "Required" in Messages(TitleErrors(title))
    ensures TitleMinLength <= Utf16Length(title) <= TitleMaxLength ==> Messages(TitleErrors(title)) == {}
  {
  }

  /** Content over the limit gets exactly the length message; any other content none. */
  lemma ContentMessages(content: string)
    ensures Utf16Length(content) > ContentMaxLength ==> Messages(ContentErrors(content)) == {"Maximum 500 characters"}
    ensures Utf16Length(content) <= ContentMaxLength ==> Messages(ContentErrors(content)) == {}
  {
  }

  /** The failing title rules: min(3), max(50), required. */
  function TitleErrors(title: string): (r: set<Rule>)
    ensures r <= {TitleMin, TitleMax, TitleRequired}
    ensures r == {} <==> TitleMinLength <= Utf16Length(title) <= TitleMaxLength
    ensures 1 <= Utf16Length(title) < TitleMinLength ==> r == {TitleMin}
    ensures Utf16Length(title) > TitleMaxLength ==> r == {TitleMax}
    ensures Utf16Length(title) == 0 ==> TitleRequired in r
    ensures Utf16Length(title) > 0 ==> |r| <= 1
  {
    (if Utf16Length(title) < TitleMinLength then {TitleMin} else {})
    + (if Utf16Length(title) > TitleMaxLength then {TitleMax} else {})
    + (if Utf16Length(title) == 0 then {TitleRequired} else {})
  }

  /** The failing content rules: max(500); empty content is allowed. */
  function ContentErrors(content: string): (r: set<Rule>)
    ensures r <= {ContentMax}
    ensures r == {} <==> Utf16Length(content) <= ContentMaxLength
    ensures Utf16Length(content) > ContentMaxLength ==> r == {ContentMax}
  {
    if Utf16Length(content) > ContentMaxLength then {ContentMax} else {}
  }

  /**
   * The failing tag rule: oneOf(the five names). The select only ever offers
   * the five names, so its "required" rule never fails on its own and is
   * not a separate rule here.
   */
  function TagErrors(raw: string): (r: set<Rule>)
    ensures r <= {TagOneOf}
    ensures r == {} <==> raw in TagNames
    ensures r == {} <==> ParseTag(raw).Some?
  {
    if raw in TagNames then {}
    else {TagOneOf}
  }

  /** What the form holds: the tag as the raw value of its select. */
  datatype FormValues = FormValues(title: string, content: string, tag: string)

  /** Per-field errors of a whole form. */
  datatype FormErrors = FormErrors(title: set<Rule>, content: set<Rule>, tag: set<Rule>)
  {
    predicate None() { title == {} && content == {} && tag == {} }
  }

  /** The schema applied to each field; each field's entry depends on its value alone. */
  function Errors(v: FormValues): (r: FormErrors)
    ensures r.title == TitleErrors(v.title)
    ensures r.content == ContentErrors(v.content)
    ensures r.tag == TagErrors(v.tag)
  {
    FormErrors(TitleErrors(v.title), ContentErrors(v.content), TagErrors(v.tag))
  }

  predicate IsValid(v: FormValues)
  {
    Errors(v).None()
  }

  /** The form is valid exactly when every field lies within its bounds. */
  lemma ValidIff(v: FormValues)
    ensures IsValid(v) <==>
      && TitleMinLength <= Utf16Length(v.title) <= TitleMaxLength
      && Utf16Length(v.content) <= ContentMaxLength
      && v.tag in TagNames
  {
  }

  /** The body of a create request. */
  datatype Payload = Payload(title: string, content: string, tag: Tag)

  /** The request body built from valid values: the entered values, field for field. */
  function ToPayload(v: FormValues): (p: Payload)
    requires IsValid(v)
    ensures p.title == v.title && p.content == v.content && TagName(p.tag) == v.tag
    ensures PayloadWithinBounds(p)
  {
    Payload(v.title, v.content, ParseTag(v.tag).value)
  }

  /** What the schema guarantees of every request body it lets through. */
  predicate PayloadWithinBounds(p: Payload)
  {
    TitleMinLength <= Utf16Length(p.title) <= TitleMaxLength && Utf16Length(p.content) <= ContentMaxLength
  }

  /** The values the form opens with. */
  const InitialValues := FormValues("", "", "Todo")

  /** The initial values fail on the title field only. */
  lemma InitialFailsOnTitleOnly()
    ensures !IsValid(InitialValues)
    ensures TitleRequired in Errors(InitialValues).title
    ensures Errors(InitialValues).content == {} && Errors(InitialValues).tag == {}
  {
  }
}
