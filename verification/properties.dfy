/** Properties relating several calls of the state store and the metrics:
    the save/load round trip, what the startup sequence restores, load
    idempotence, and the arithmetic of the gauges. */
module StoreProperties {
  import opened Wrappers
  import opened JsText
  import opened Layout
  import opened State
  import opened Store
  import opened Metrics

  // ------------------------------------------------------------ round trip

  /** With distinct values, a box ends up checked after the focus loop
      exactly when it was checked or its value is listed. */
  lemma LoadFocusDistinct(boxes: seq<CheckBox>, areas: seq<string>)
    requires Distinct(Values(boxes))
    ensures forall i :: 0 <= i < |boxes| ==>
      (LoadFocus(boxes, areas)[i].checked <==> boxes[i].checked || boxes[i].value in areas)
  {
  }

  /** Restoring the checked values of `saved` into unchecked boxes with the
      same distinct values reproduces `saved`. */
  lemma CheckedValuesRestore(saved: seq<CheckBox>, restored: seq<CheckBox>)
    requires Distinct(Values(saved)) && Values(restored) == Values(saved)
    requires forall i :: 0 <= i < |restored| ==> (restored[i].checked <==> HasChecked(saved, restored[i].value))
    ensures restored == saved
  {
  }

  /** Restoring the checked focus tags of `boxes` into unchecked boxes with
      the same distinct values reproduces `boxes`. */
  lemma FocusRestore(blank: seq<CheckBox>, boxes: seq<CheckBox>)
    requires Distinct(Values(boxes)) && Values(blank) == Values(boxes)
    requires forall i :: 0 <= i < |blank| ==> !blank[i].checked
    ensures LoadFocus(blank, CheckedValues(boxes)) == boxes
  {
    var vs := CheckedValues(boxes);
    var restored := LoadFocus(blank, vs);
    OnlyChecksKeepsValues(blank, restored);
    assert forall i :: 0 <= i < |restored| ==> (restored[i].checked <==> HasChecked(boxes, restored[i].value)) by {
      LoadFocusDistinct(blank, vs);
      forall i | 0 <= i < |restored|
        ensures restored[i].checked <==> HasChecked(boxes, restored[i].value)
      {
        assert restored[i].checked <==> blank[i].value in vs;
        assert restored[i].value == blank[i].value;
      }
    }
    CheckedValuesRestore(boxes, restored);
  }

  /** The round trip restores the checked focus tags. */
  lemma RoundTripFocus(u: UiState)
    requires WellFormed(u)
    ensures InitCorrected(Some(Save(u)), Values(u.focus)).focus == u.focus
  {
    var f := Fresh(Values(u.focus));
    var d := Save(u).daily.value;
    assert d.focusAreas == Some(CheckedValues(u.focus));
    assert Load(Some(Save(u)), f).focus == LoadDaily(d, f).focus;
    FocusRestore(f.focus, u.focus);
  }

  /** Restoring the checked values of `boxes` into unchecked boxes with the
      same distinct values reproduces `boxes`. */
  lemma ChecklistRestore(blank: seq<CheckBox>, boxes: seq<CheckBox>)
    requires Distinct(Values(boxes)) && Values(blank) == Values(boxes)
    requires forall i :: 0 <= i < |blank| ==> !blank[i].checked
    ensures LoadChecklist(blank, CheckedValues(boxes)) == boxes
  {
  }

  /** The round trip restores the checked checklist items. */
  lemma RoundTripChecklist(u: UiState)
    requires WellFormed(u)
    ensures InitCorrected(Some(Save(u)), Values(u.focus)).checklist == u.checklist
  {
    var f := Fresh(Values(u.focus));
    var m := Save(u).monthly.value;
    assert m.checklist == Some(CheckedValues(u.checklist));
    assert Load(Some(Save(u)), f).checklist == LoadMonthly(m, f).checklist;
    SlugsDistinct();
    ChecklistRestore(f.checklist, u.checklist);
  }

  /** Loading the `weekly` object saved from notes with distinct keys into
      empty notes with the same keys gives those notes back. */
  lemma NotesRestore(blank: seq<DayNote>, saved: seq<DayNote>)
    requires Days(blank) == Days(saved) && Distinct(Days(saved))
    requires forall i :: 0 <= i < |blank| ==> blank[i].text == ""
    ensures LoadWeekly(blank, NotesToMap(saved)) == saved
  {
    var r := LoadWeekly(blank, NotesToMap(saved));
    forall i | 0 <= i < |saved|
      ensures r[i] == saved[i]
    {
      assert blank[i].day == Days(blank)[i] == Days(saved)[i] == saved[i].day;
      assert LastWithDay(saved, i);
    }
  }

  /** The round trip restores every day note. */
  lemma RoundTripNotes(u: UiState)
    requires WellFormed(u)
    ensures InitCorrected(Some(Save(u)), Values(u.focus)).dayNotes == u.dayNotes
  {
    var f := Fresh(Values(u.focus));
    var w := Save(u).weekly.value;
    assert w == NotesToMap(u.dayNotes);
    assert Load(Some(Save(u)), f).dayNotes == LoadWeekly(f.dayNotes, w);
    DayKeysSpelled();
    NotesRestore(f.dayNotes, u.dayNotes);
  }

  /** The round trip restores every prompt. */
  lemma RoundTripPrompts(u: UiState)
    requires WellFormed(u)
    ensures InitCorrected(Some(Save(u)), Values(u.focus)).prompts == u.prompts
  {
  }

  /** Saving a well-formed page and restoring the snapshot into a freshly
      built page with the same focus tags reproduces every field: the
      checked focus tags and checklist items, the three tasks, the anchor,
      the win, every day note and every prompt. */
  lemma RoundTrip(u: UiState)
    requires WellFormed(u)
    ensures InitCorrected(Some(Save(u)), Values(u.focus)) == u
  {
    RoundTripFocus(u);
    RoundTripChecklist(u);
    RoundTripNotes(u);
    RoundTripPrompts(u);
    RoundTripFields(u);
  }

  /** The round trip restores the three tasks, the anchor and the win. */
  lemma RoundTripFields(u: UiState)
    requires WellFormed(u)
    ensures var r := InitCorrected(Some(Save(u)), Values(u.focus));
      && r.task1 == u.task1 && r.task2 == u.task2 && r.task3 == u.task3
      && r.spiritualAnchor == u.spiritualAnchor && r.win == u.win
  {
    var r := InitCorrected(Some(Save(u)), Values(u.focus));
    assert [r.task1, r.task2, r.task3] == [u.task1, u.task2, u.task3];
  }

  /** On a well-formed page the saved `weekly` object has exactly the seven
      lower-case day names as keys. */
  lemma SaveWeeklyKeys(u: UiState)
    requires WellFormed(u)
    ensures Save(u).weekly.value.Keys == {"monday", "tuesday", "wednesday", "thursday", "friday", "saturday", "sunday"}
  {
    var m := Save(u).weekly.value;
    assert forall k :: k in m <==> k in Days(u.dayNotes);
    KeyedByDays(m);
  }

  /** A map keyed exactly by the weekly keys has the seven day names as keys. */
  lemma KeyedByDays(m: map<string, string>)
    requires forall k :: k in m <==> k in DayKeys()
    ensures m.Keys == {"monday", "tuesday", "wednesday", "thursday", "friday", "saturday", "sunday"}
  {
    DayKeysSpelled();
  }

  /** The gauges shown after restoring a saved page are those of the page
      that was saved, and saving again writes the same snapshot. */
  lemma RoundTripKeepsGauges(u: UiState)
    requires WellFormed(u)
    ensures Completion(InitCorrected(Some(Save(u)), Values(u.focus))) == Completion(u)
    ensures Save(InitCorrected(Some(Save(u)), Values(u.focus))) == Save(u)
  {
    RoundTrip(u);
  }

  // ----------------------------------------------- the startup sequence

  /** The page `init` builds as written agrees with the corrected startup on
      everything but the weekly notes and the checklist: the focus tags, the
      tasks, the anchor, the win and the prompts are restored either way. */
  lemma InitAsWrittenRestoresDaily(stored: Option<Snapshot>, focusValues: seq<string>)
    ensures var a, c := InitAsWritten(stored, focusValues), InitCorrected(stored, focusValues);
      && a.focus == c.focus
      && a.task1 == c.task1 && a.task2 == c.task2 && a.task3 == c.task3
      && a.spiritualAnchor == c.spiritualAnchor && a.win == c.win
      && a.prompts == c.prompts
  {
  }

  /** A page whose Monday note is "plan" and whose first checklist item is
      checked: the round trip through `init` as written loses both. */
  function PlannedMonday(): (u: UiState)
    ensures WellFormed(u)
    ensures u.dayNotes[0].text == "plan" && u.checklist[0].checked
  {
    var f := Fresh([]);
    DayKeysSpelled();
    SlugsDistinct();
    f.(dayNotes := f.dayNotes[0 := DayNote(f.dayNotes[0].day, "plan")],
       checklist := f.checklist[0 := CheckBox(f.checklist[0].value, true)])
  }

  /** The round trip of RoundTrip fails for `init` as written: the saved
      Monday note comes back blank and the checked item unchecked. */
  lemma InitAsWrittenLosesWeek()
    ensures var u := PlannedMonday();
      var r := InitAsWritten(Some(Save(u)), Values(u.focus));
      && r.dayNotes[0].text == "" && !r.checklist[0].checked
      && r != u
  {
  }

  // ------------------------------------------------------ load idempotence

  /** Restoring the same slot twice gives the page restoring it once gives. */
  lemma LoadIdempotent(stored: Option<Snapshot>, u: UiState)
    ensures Load(stored, Load(stored, u)) == Load(stored, u)
  {
  }

  /** The falsy-task rule: a persisted empty first task clears a filled
      first task, while a persisted empty anchor keeps a filled one. */
  lemma FalsyTaskClearsSlot(u: UiState)
    requires u.task1 == "Ship v1" && u.spiritualAnchor == "Psalm 23"
    ensures var s := Snapshot(Some(Daily(None, Some(["", "B", "C"]), Some(""), None)), None, None);
      var r := Load(Some(s), u);
      r.task1 == "" && r.task2 == "B" && r.task3 == "C" && r.spiritualAnchor == "Psalm 23"
  {
  }

  // --------------------------------------------------------- the gauges

  /** A larger count never gives a smaller percentage. */
  lemma RoundPercentMonotone(n1: nat, n2: nat, d: nat)
    requires d > 0 && n1 <= n2
    ensures RoundPercent(n1, d) <= RoundPercent(n2, d)
  {
    var p1, p2 := RoundPercent(n1, d), RoundPercent(n2, d);
    assert 2 * (d * p1) <= 200 * n1 + d;
    assert 200 * n2 + d < 2 * (d * p2) + 2 * d;
    assert d * (p2 + 1) == d * p2 + d;
    if p1 > p2 {
      MulMonotone(d, p2 + 1, p1);
    }
  }

  /** For the three denominators the page uses, 100·n/d is never exactly
      halfway between two integers, so the rounding direction of a tie never
      matters and floating-point `Math.round` lands on the same integer. */
  lemma NoHalfwayPercent(n: nat, d: nat)
    requires d == 7 || d == 9 || d == 10
    ensures -(d as int) < 2 * (100 * n - d * RoundPercent(n, d)) < d
  {
  }

  /** A higher percentage never gets a lower band. */
  lemma CompletionColorMonotone(p: int, q: int)
    requires p <= q
    ensures CompletionColor(p).Rank() <= CompletionColor(q).Rank()
  {
  }

  /** Sample readings: six of ten daily items give 60%, four of seven notes
      57%, five of nine monthly items 56%, all yellow; the band boundaries
      29, 30, 69 and 70. */
  lemma SamplePercents()
    ensures RoundPercent(6, DailyMax) == 60 && CompletionColor(60) == PaleYellow
    ensures RoundPercent(4, |WeekDays|) == 57
    ensures RoundPercent(5, MonthlyMax) == 56
    ensures CompletionColor(29) == PaleRed && CompletionColor(30) == PaleYellow
    ensures CompletionColor(69) == PaleYellow && CompletionColor(70) == PaleGreen
  {
  }
}
