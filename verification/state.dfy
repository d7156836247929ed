/** The two records the state store maps between: the live page state (what
    the input elements currently hold) and the persisted snapshot. */
module State {
  import opened Wrappers
  import opened JsText
  import opened Layout

  /** A checkbox input: its `value` attribute and whether it is checked. */
  datatype CheckBox = CheckBox(value: string, checked: bool)

  /** A `.day-notes` text area: its `data-day` key and its text. */
  datatype DayNote = DayNote(day: string, text: string)

  /** The live page. Element lists are in document order, as
      `querySelectorAll` returns them; a list is empty while the elements
      have not been created yet. */
  datatype UiState = UiState(
    focus: seq<CheckBox>,       // input[name="focus"]
    task1: string,
    task2: string,
    task3: string,
    spiritualAnchor: string,
    win: string,                // #dailyWin
    dayNotes: seq<DayNote>,     // .day-notes
    checklist: seq<CheckBox>,   // #monthlyChecklist checkboxes
    prompts: seq<string>        // .prompt-response
  )

  /** The `daily` section of a snapshot. A field written by the page is
      always present; a document from elsewhere may lack any of them. */
  datatype Daily = Daily(
    focusAreas: Option<seq<string>>,
    tasks: Option<seq<string>>,
    spiritualAnchor: Option<string>,
    win: Option<string>
  )

  /** The `monthly` section of a snapshot. */
  datatype Monthly = Monthly(checklist: Option<seq<string>>, prompts: Option<seq<string>>)

  /** The persisted document: three optional sections, `weekly` mapping a day
      key to its note. */
  datatype Snapshot = Snapshot(daily: Option<Daily>, weekly: Option<map<string, string>>, monthly: Option<Monthly>)

  /** JavaScript truthiness of a string that may be undefined: present and
      not the empty string. */
  predicate Truthy(v: Option<string>) {
    v.Some? && v.value != ""
  }

  /** `xs[i]`, which is undefined past the end of the array. */
  function At(xs: seq<string>, i: nat): (v: Option<string>)
    ensures v.Some? <==> i < |xs|
    ensures i < |xs| ==> v.value == xs[i]
  {
    if i < |xs| then Some(xs[i]) else None
  }

  /** `m[k]`, which is undefined for a missing key. */
  function Get(m: map<string, string>, k: string): (v: Option<string>)
    ensures v.Some? <==> k in m
    ensures k in m ==> v.value == m[k]
  {
    if k in m then Some(m[k]) else None
  }

  /** The `value` attributes of a list of checkboxes. */
  function Values(boxes: seq<CheckBox>): (vs: seq<string>)
    ensures |vs| == |boxes|
    ensures forall i :: 0 <= i < |boxes| ==> vs[i] == boxes[i].value
  {
    seq(|boxes|, i requires 0 <= i < |boxes| => boxes[i].value)
  }

  /** The `data-day` keys of a list of day-note text areas. */
  function Days(notes: seq<DayNote>): (ds: seq<string>)
    ensures |ds| == |notes|
    ensures forall i :: 0 <= i < |notes| ==> ds[i] == notes[i].day
  {
    seq(|notes|, i requires 0 <= i < |notes| => notes[i].day)
  }

  /** The page after both setup steps have built their elements: at most
      five focus checkboxes with distinct values, one note per weekday under
      its key, one checkbox per checklist item under its slug, and the four
      prompt areas. */
  predicate WellFormed(u: UiState) {
    && |u.focus| <= FocusMax
    && Distinct(Values(u.focus))
    && Days(u.dayNotes) == DayKeys()
    && Values(u.checklist) == Slugs()
    && |u.prompts| == PromptCount
  }

  /** Two pages have the same elements (values, keys and counts), whatever
      those elements currently hold. */
  predicate SameMarkup(u: UiState, v: UiState) {
    && Values(u.focus) == Values(v.focus)
    && Days(u.dayNotes) == Days(v.dayNotes)
    && Values(u.checklist) == Values(v.checklist)
    && |u.prompts| == |v.prompts|
  }

  /** Same markup preserves well-formedness. */
  lemma SameMarkupWellFormed(u: UiState, v: UiState)
    requires SameMarkup(u, v) && WellFormed(u)
    ensures WellFormed(v)
  {
  }

  /** `v` differs from `u` only by boxes turned from unchecked to checked. */
  predicate OnlyChecks(u: seq<CheckBox>, v: seq<CheckBox>) {
    && |v| == |u|
    && forall i :: 0 <= i < |u| ==> v[i].value == u[i].value && (u[i].checked ==> v[i].checked)
  }

  /** Checking boxes leaves their values alone. */
  lemma OnlyChecksKeepsValues(u: seq<CheckBox>, v: seq<CheckBox>)
    requires OnlyChecks(u, v)
    ensures Values(u) == Values(v)
  {
  }
}
