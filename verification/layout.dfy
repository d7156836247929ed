/** The fixed page layout the state store works against: how many fields of
    each kind exist, the weekly schedule table and the monthly checklist
    items, and the keys derived from them. */
module Layout {
  import opened JsText

  /** The three task inputs `task1`, `task2`, `task3`. */
  const TaskCount: nat := 3
  /** The most focus checkboxes the daily page offers (the daily maximum counts five). */
  const FocusMax: nat := 5
  /** The monthly `.prompt-response` text areas. */
  const PromptCount: nat := 4

  /** The day names of the weekly schedule table, in display order. */
  const WeekDays: seq<string> :=
    ["Monday", "Tuesday", "Wednesday", "Thursday", "Friday", "Saturday", "Sunday"]

  /** The monthly checklist items, in display order. */
  const ChecklistItems: seq<string> := [
    "Reflect on past month wins & lessons",
    "Reset goals for next month",
    "Review current alignment to purpose",
    "Add 1 new habit or ritual",
    "Take 1 day for silence, nature, or art"
  ]

  /** The `data-day` key of each day-note text area: the lower-cased day name. */
  function DayKeys(): (keys: seq<string>)
    ensures |keys| == |WeekDays|
  {
    seq(|WeekDays|, i requires 0 <= i < |WeekDays| => ToLowerAscii(WeekDays[i]))
  }

  /** The checkbox value of each checklist item: its slug. */
  function Slugs(): (slugs: seq<string>)
    ensures |slugs| == |ChecklistItems|
  {
    seq(|ChecklistItems|, i requires 0 <= i < |ChecklistItems| => Slug(ChecklistItems[i]))
  }

  /** No two elements of `s` are equal. */
  predicate Distinct<T(==)>(s: seq<T>) {
    forall i, j :: 0 <= i < j < |s| ==> s[i] != s[j]
  }

  /** The weekly keys spelled out; no two days share a key. */
  lemma DayKeysSpelled()
    ensures DayKeys() == ["monday", "tuesday", "wednesday", "thursday", "friday", "saturday", "sunday"]
    ensures Distinct(DayKeys())
  {
    assert ToLowerAscii("Monday") == "monday";
    assert ToLowerAscii("Tuesday") == "tuesday";
    assert ToLowerAscii("Wednesday") == "wednesday";
    assert ToLowerAscii("Thursday") == "thursday";
    assert ToLowerAscii("Friday") == "friday";
    assert ToLowerAscii("Saturday") == "saturday";
    assert ToLowerAscii("Sunday") == "sunday";
  }

  /** No two checklist items share a slug, and no slug holds a space. */
  lemma SlugsDistinct()
    ensures Distinct(Slugs())
    ensures forall i :: 0 <= i < |Slugs()| ==> ' ' !in Slugs()[i]
  {
  }
}
