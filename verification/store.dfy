/** The state store: building a snapshot from the live page (`saveData`),
    writing a persisted snapshot back into the page (`loadData`), the two
    setup steps that create the weekly and monthly elements, and the startup
    sequence that runs them. */
module Store {
  import opened Wrappers
  import opened JsText
  import opened Layout
  import opened State

  // ---------------------------------------------------------------- saving

  /** The values of the checked boxes, in document order
      (`querySelectorAll(':checked')` mapped to `value`). */
  function CheckedValues(boxes: seq<CheckBox>): (vs: seq<string>)
    ensures |vs| <= |boxes|
    ensures forall v :: v in vs <==> HasChecked(boxes, v)
    ensures |vs| == 0 <==> forall i :: 0 <= i < |boxes| ==> !boxes[i].checked
    ensures |vs| == |boxes| <==> forall i :: 0 <= i < |boxes| ==> boxes[i].checked
  {
    if boxes == [] then []
    else
      var rest := CheckedValues(boxes[1..]);
      assert forall i :: 1 <= i < |boxes| ==> boxes[i] == boxes[1..][i - 1];
      assert forall v :: HasChecked(boxes, v) <==> (boxes[0].checked && boxes[0].value == v) || HasChecked(boxes[1..], v);
      if boxes[0].checked then [boxes[0].value] + rest else rest
  }

  /** The number of saved values is the number of checked boxes. */
  lemma CheckedValuesCount(boxes: seq<CheckBox>)
    ensures |CheckedValues(boxes)| == |set i | 0 <= i < |boxes| && boxes[i].checked|
  {
    CheckedValuesCountFrom(boxes, 0);
    assert boxes[0..] == boxes;
  }

  /** CheckedValuesCount for the boxes from position `k` on. */
  lemma {:induction false} CheckedValuesCountFrom(boxes: seq<CheckBox>, k: nat)
    requires k <= |boxes|
    ensures |CheckedValues(boxes[k..])| == |set i | k <= i < |boxes| && boxes[i].checked|
    decreases |boxes| - k
  {
    var here := set i | k <= i < |boxes| && boxes[i].checked;
    if k == |boxes| {
      assert here == {};
    } else {
      CheckedValuesCountFrom(boxes, k + 1);
      var later := set i | k + 1 <= i < |boxes| && boxes[i].checked;
      assert boxes[k..][1..] == boxes[k + 1..];
      assert here == if boxes[k].checked then later + {k} else later;
    }
  }

  /** Some checked box carries the value `v`. */
  predicate HasChecked(boxes: seq<CheckBox>, v: string) {
    exists i :: 0 <= i < |boxes| && boxes[i].checked && boxes[i].value == v
  }

  /** The `weekly` object built by assigning `data.weekly[day] = text` for
      each note in document order: a later note with the same key wins. */
  function NotesToMap(notes: seq<DayNote>): (m: map<string, string>)
    ensures forall k :: k in m <==> k in Days(notes)
    ensures forall i :: 0 <= i < |notes| && LastWithDay(notes, i) ==> m[notes[i].day] == notes[i].text
  {
    if notes == [] then map[]
    else
      var init := notes[..|notes| - 1];
      var last := notes[|notes| - 1];
      var m0 := NotesToMap(init);
      NotesToMapStep(notes, m0);
      m0[last.day := last.text]
  }

  /** Assigning the last note's text to the map built from the notes before
      it yields the map built from all notes. */
  lemma NotesToMapStep(notes: seq<DayNote>, m0: map<string, string>)
    requires notes != []
    requires forall k :: k in m0 <==> k in Days(notes[..|notes| - 1])
    requires forall i :: 0 <= i < |notes| - 1 && LastWithDay(notes[..|notes| - 1], i) ==> m0[notes[i].day] == notes[i].text
    ensures var m := m0[notes[|notes| - 1].day := notes[|notes| - 1].text];
      && (forall k :: k in m <==> k in Days(notes))
      && (forall i :: 0 <= i < |notes| && LastWithDay(notes, i) ==> m[notes[i].day] == notes[i].text)
  {
  }

  /** No note after position `i` has the same key as note `i`. */
  predicate LastWithDay(notes: seq<DayNote>, i: int)
    requires 0 <= i < |notes|
  {
    forall j :: i < j < |notes| ==> notes[j].day != notes[i].day
  }

  /** `saveData`: the snapshot built from the current page. It is a full
      overwrite: every section and field is present, whatever was persisted
      before. */
  function Save(u: UiState): (s: Snapshot)
    ensures s.daily.Some? && s.weekly.Some? && s.monthly.Some?
    ensures s.daily.value.tasks == Some([u.task1, u.task2, u.task3])
    ensures s.daily.value.spiritualAnchor == Some(u.spiritualAnchor)
    ensures s.daily.value.win == Some(u.win)
    ensures s.daily.value.focusAreas == Some(CheckedValues(u.focus))
    ensures forall i :: 0 <= i < |u.focus| ==> (u.focus[i].checked ==> u.focus[i].value in s.daily.value.focusAreas.value)
    ensures forall k :: k in s.weekly.value <==> k in Days(u.dayNotes)
    ensures Distinct(Days(u.dayNotes)) ==>
      forall i :: 0 <= i < |u.dayNotes| ==> s.weekly.value[u.dayNotes[i].day] == u.dayNotes[i].text
    ensures s.monthly.value.checklist == Some(CheckedValues(u.checklist))
    ensures forall i :: 0 <= i < |u.checklist| ==> (u.checklist[i].checked ==> u.checklist[i].value in s.monthly.value.checklist.value)
    ensures s.monthly.value.prompts == Some(u.prompts)
  {
    var daily := Daily(Some(CheckedValues(u.focus)), Some([u.task1, u.task2, u.task3]), Some(u.spiritualAnchor), Some(u.win));
    var monthly := Monthly(Some(CheckedValues(u.checklist)), Some(u.prompts));
    var s := Snapshot(Some(daily), Some(NotesToMap(u.dayNotes)), Some(monthly));
    assert Distinct(Days(u.dayNotes)) ==> forall i :: 0 <= i < |u.dayNotes| ==> LastWithDay(u.dayNotes, i);
    s
  }

  // --------------------------------------------------------------- loading

  /** Box `i` is the first box carrying its value, the one
      `querySelector('input[value="…"]')` returns. */
  predicate IsFirstOfValue(boxes: seq<CheckBox>, i: int)
    requires 0 <= i < |boxes|
  {
    forall j :: 0 <= j < i ==> boxes[j].value != boxes[i].value
  }

  /** Checks the first box whose value is `v`; no box changes if none has it. */
  function CheckFirst(boxes: seq<CheckBox>, v: string): (r: seq<CheckBox>)
    ensures OnlyChecks(boxes, r)
    ensures forall i :: 0 <= i < |boxes| ==>
      (r[i].checked <==> boxes[i].checked || (boxes[i].value == v && IsFirstOfValue(boxes, i)))
  {
    if boxes == [] then []
    else if boxes[0].value == v then [boxes[0].(checked := true)] + boxes[1..]
    else
      var rest := CheckFirst(boxes[1..], v);
      var r := [boxes[0]] + rest;
      assert forall i :: 1 <= i < |boxes| ==> boxes[i] == boxes[1..][i - 1] && r[i] == rest[i - 1];
      assert forall i :: 1 <= i < |boxes| ==> (IsFirstOfValue(boxes, i) <==> boxes[0].value != boxes[i].value && IsFirstOfValue(boxes[1..], i - 1));
      r
  }

  /** The `focusAreas.forEach` loop: each listed tag checks the first focus
      box with that value; tags with no box are ignored. */
  function LoadFocus(boxes: seq<CheckBox>, areas: seq<string>): (r: seq<CheckBox>)
    ensures OnlyChecks(boxes, r)
    ensures forall i :: 0 <= i < |boxes| ==>
      (r[i].checked <==> boxes[i].checked || (boxes[i].value in areas && IsFirstOfValue(boxes, i)))
    decreases |areas|
  {
    if areas == [] then boxes
    else LoadFocus(CheckFirst(boxes, areas[0]), areas[1..])
  }

  /** The checklist loop: every box whose value the persisted list includes
      becomes checked. */
  function LoadChecklist(boxes: seq<CheckBox>, values: seq<string>): (r: seq<CheckBox>)
    ensures OnlyChecks(boxes, r)
    ensures forall i :: 0 <= i < |boxes| ==> (r[i].checked <==> boxes[i].checked || boxes[i].value in values)
  {
    seq(|boxes|, i requires 0 <= i < |boxes| =>
      if boxes[i].value in values then boxes[i].(checked := true) else boxes[i])
  }

  /** Overwrites `current` with a persisted value only when that value is truthy. */
  function KeepUnlessTruthy(current: string, persisted: Option<string>): (r: string)
    ensures r == current || (Truthy(persisted) && r == persisted.value)
    ensures Truthy(persisted) ==> r == persisted.value
  {
    if Truthy(persisted) then persisted.value else current
  }

  /** `tasks[i] || ''`: the persisted entry, or the empty string when it is
      falsy or missing. */
  function TaskOrEmpty(tasks: seq<string>, i: nat): (r: string)
    ensures i < |tasks| ==> r == tasks[i]
    ensures i >= |tasks| ==> r == ""
  {
    At(tasks, i).GetOr("")
  }

  /** The weekly loop: each note whose key has a truthy persisted note takes it. */
  function LoadWeekly(notes: seq<DayNote>, weekly: map<string, string>): (r: seq<DayNote>)
    ensures Days(r) == Days(notes)
    ensures forall i :: 0 <= i < |notes| ==> r[i].text == KeepUnlessTruthy(notes[i].text, Get(weekly, notes[i].day))
  {
    seq(|notes|, i requires 0 <= i < |notes| =>
      notes[i].(text := KeepUnlessTruthy(notes[i].text, Get(weekly, notes[i].day))))
  }

  /** The prompt loop: prompt area `i` takes the persisted `prompts[i]` when
      it is truthy. */
  function LoadPrompts(fields: seq<string>, prompts: seq<string>): (r: seq<string>)
    ensures |r| == |fields|
    ensures forall i :: 0 <= i < |fields| ==> r[i] == KeepUnlessTruthy(fields[i], At(prompts, i))
  {
    seq(|fields|, i requires 0 <= i < |fields| => KeepUnlessTruthy(fields[i], At(prompts, i)))
  }

  /** Restores the `daily` section. */
  function LoadDaily(d: Daily, u: UiState): (r: UiState)
    ensures SameMarkup(u, r)
    ensures r.dayNotes == u.dayNotes && r.checklist == u.checklist && r.prompts == u.prompts
  {
    var focus := if d.focusAreas.Some? then LoadFocus(u.focus, d.focusAreas.value) else u.focus;
    var u1 := u.(focus := focus);
    var u2 :=
      if d.tasks.Some? then
        u1.(task1 := TaskOrEmpty(d.tasks.value, 0),
            task2 := TaskOrEmpty(d.tasks.value, 1),
            task3 := TaskOrEmpty(d.tasks.value, 2))
      else u1;
    u2.(spiritualAnchor := KeepUnlessTruthy(u.spiritualAnchor, d.spiritualAnchor),
        win := KeepUnlessTruthy(u.win, d.win))
  }

  /** Restores the `monthly` section. */
  function LoadMonthly(m: Monthly, u: UiState): (r: UiState)
    ensures SameMarkup(u, r)
  {
    var checklist := if m.checklist.Some? then LoadChecklist(u.checklist, m.checklist.value) else u.checklist;
    var prompts := if m.prompts.Some? then LoadPrompts(u.prompts, m.prompts.value) else u.prompts;
    u.(checklist := checklist, prompts := prompts)
  }

  /** The persisted value of each text field as `loadData` reads it, or
      None when its section or the field itself is absent. */
  function PersistedAnchor(s: Snapshot): Option<string> {
    if s.daily.Some? then s.daily.value.spiritualAnchor else None
  }

  function PersistedWin(s: Snapshot): Option<string> {
    if s.daily.Some? then s.daily.value.win else None
  }

  function PersistedNote(s: Snapshot, day: string): Option<string> {
    if s.weekly.Some? then Get(s.weekly.value, day) else None
  }

  function PersistedPrompt(s: Snapshot, i: nat): Option<string> {
    if s.monthly.Some? && s.monthly.value.prompts.Some? then At(s.monthly.value.prompts.value, i) else None
  }

  function PersistedFocus(s: Snapshot): Option<seq<string>> {
    if s.daily.Some? then s.daily.value.focusAreas else None
  }

  function PersistedChecklist(s: Snapshot): Option<seq<string>> {
    if s.monthly.Some? then s.monthly.value.checklist else None
  }

  /** The persisted task array, when the `daily` section has one. */
  function PersistedTasks(s: Snapshot): Option<seq<string>> {
    if s.daily.Some? then s.daily.value.tasks else None
  }

  /** `loadData`: the page after restoring the persisted slot `stored`.
      An empty slot changes nothing. Otherwise no element is created or
      removed; checkboxes are only ever checked, never unchecked; the
      anchor, the win, each day note and each prompt keep their current text
      unless the persisted value is truthy; and a present task array
      overwrites all three tasks, a falsy or missing entry clearing its slot. */
  function Load(stored: Option<Snapshot>, u: UiState): (r: UiState)
    ensures stored.None? ==> r == u
    ensures SameMarkup(u, r)
    ensures OnlyChecks(u.focus, r.focus) && OnlyChecks(u.checklist, r.checklist)
    ensures stored.Some? ==> forall i :: 0 <= i < |u.focus| ==>
      (r.focus[i].checked <==> (
        || u.focus[i].checked
        || (PersistedFocus(stored.value).Some? && u.focus[i].value in PersistedFocus(stored.value).value && IsFirstOfValue(u.focus, i))))
    ensures stored.Some? ==> forall i :: 0 <= i < |u.checklist| ==>
      (r.checklist[i].checked <==> (
        || u.checklist[i].checked
        || (PersistedChecklist(stored.value).Some? && u.checklist[i].value in PersistedChecklist(stored.value).value)))
    ensures stored.Some? ==> r.spiritualAnchor == KeepUnlessTruthy(u.spiritualAnchor, PersistedAnchor(stored.value))
    ensures stored.Some? ==> r.win == KeepUnlessTruthy(u.win, PersistedWin(stored.value))
    ensures stored.Some? ==> forall i :: 0 <= i < |u.dayNotes| ==>
      r.dayNotes[i].text == KeepUnlessTruthy(u.dayNotes[i].text, PersistedNote(stored.value, u.dayNotes[i].day))
    ensures stored.Some? ==> forall i :: 0 <= i < |u.prompts| ==>
      r.prompts[i] == KeepUnlessTruthy(u.prompts[i], PersistedPrompt(stored.value, i))
    ensures stored.Some? && PersistedTasks(stored.value).Some? ==>
      var tasks := PersistedTasks(stored.value).value;
      [r.task1, r.task2, r.task3] == [TaskOrEmpty(tasks, 0), TaskOrEmpty(tasks, 1), TaskOrEmpty(tasks, 2)]
    ensures (stored.None? || PersistedTasks(stored.value).None?) ==>
      [r.task1, r.task2, r.task3] == [u.task1, u.task2, u.task3]
  {
    match stored
    case None => u
    case Some(data) =>
      var u1 := if data.daily.Some? then LoadDaily(data.daily.value, u) else u;
      var u2 := if data.weekly.Some? then u1.(dayNotes := LoadWeekly(u1.dayNotes, data.weekly.value)) else u1;
      if data.monthly.Some? then LoadMonthly(data.monthly.value, u2) else u2
  }

  // ------------------------------------------------------------- the page

  /** The day-note text areas `setupWeeklyBlueprint` creates: one per
      weekday, keyed by the lower-cased day name, all empty. */
  function BlankNotes(): (notes: seq<DayNote>)
    ensures Days(notes) == DayKeys()
    ensures forall i :: 0 <= i < |notes| ==> notes[i].text == ""
  {
    seq(|DayKeys()|, i requires 0 <= i < |DayKeys()| => DayNote(DayKeys()[i], ""))
  }

  /** The checkboxes `setupMonthlyChecklist` creates: one per item, valued
      by its slug, all unchecked. */
  function BlankChecklist(): (boxes: seq<CheckBox>)
    ensures Values(boxes) == Slugs()
    ensures forall i :: 0 <= i < |boxes| ==> !boxes[i].checked
  {
    seq(|Slugs()|, i requires 0 <= i < |Slugs()| => CheckBox(Slugs()[i], false))
  }

  /** `setupWeeklyBlueprint`: clears the week grid (`innerHTML = ''`) and
      builds the seven empty day-note areas; nothing else changes. */
  function SetupWeeklyBlueprint(u: UiState): (r: UiState)
    ensures r.dayNotes == BlankNotes()
    ensures r == u.(dayNotes := r.dayNotes)
  {
    u.(dayNotes := BlankNotes())
  }

  /** `setupMonthlyChecklist`: appends the five unchecked item boxes after
      whatever the checklist already holds; nothing else changes. */
  function SetupMonthlyChecklist(u: UiState): (r: UiState)
    ensures r.checklist == u.checklist + BlankChecklist()
    ensures r == u.(checklist := r.checklist)
  {
    u.(checklist := u.checklist + BlankChecklist())
  }

  /** The page as served, before either setup step has run: the focus
      checkboxes (values `focusValues`), empty tasks, anchor and win, the
      four empty prompt areas, and no day notes or checklist boxes yet. */
  function Markup(focusValues: seq<string>): (u: UiState)
    ensures Values(u.focus) == focusValues
    ensures u.dayNotes == [] && u.checklist == []
  {
    UiState(
      seq(|focusValues|, i requires 0 <= i < |focusValues| => CheckBox(focusValues[i], false)),
      "", "", "", "", "",
      [], [],
      seq(PromptCount, i => ""))
  }

  /** The page after both setup steps: every element exists and every field
      is empty or unchecked. */
  function Fresh(focusValues: seq<string>): (u: UiState)
    ensures |focusValues| <= FocusMax && Distinct(focusValues) ==> WellFormed(u)
    ensures Values(u.focus) == focusValues
    ensures forall i :: 0 <= i < |u.focus| ==> !u.focus[i].checked
    ensures forall i :: 0 <= i < |u.checklist| ==> !u.checklist[i].checked
    ensures u.task1 == u.task2 == u.task3 == u.spiritualAnchor == u.win == ""
    ensures forall i :: 0 <= i < |u.dayNotes| ==> u.dayNotes[i].text == ""
    ensures forall i :: 0 <= i < |u.prompts| ==> u.prompts[i] == ""
  {
    SetupMonthlyChecklist(SetupWeeklyBlueprint(Markup(focusValues)))
  }

  /** `init` as written: `loadData` runs BEFORE the two setup steps, while
      the page has no day-note areas and no checklist boxes. The weekly
      loop and the checklist loop therefore find nothing to fill, and the
      setup steps then build those elements empty: whatever the persisted
      slot holds, every day note starts blank and every checklist box
      unchecked. */
  function InitAsWritten(stored: Option<Snapshot>, focusValues: seq<string>): (r: UiState)
    ensures r.dayNotes == BlankNotes()
    ensures r.checklist == BlankChecklist()
  {
    SetupMonthlyChecklist(SetupWeeklyBlueprint(Load(stored, Markup(focusValues))))
  }

  /** `init` with the setup steps run before `loadData`: the persisted slot
      is restored into the fully built page. */
  function InitCorrected(stored: Option<Snapshot>, focusValues: seq<string>): (r: UiState)
    ensures stored.None? ==> r == Fresh(focusValues)
    ensures SameMarkup(Fresh(focusValues), r)
    ensures |focusValues| <= FocusMax && Distinct(focusValues) ==> WellFormed(r)
  {
    Load(stored, Fresh(focusValues))
  }
}
