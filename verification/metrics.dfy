/** The completion gauges `updateCompletionPercentages` derives from the live
    page, and the colour band `getCompletionColor` gives each of them. */
module Metrics {
  import opened JsText
  import opened Layout
  import opened State
  import opened Store

  /** The values that count as filled (`filter(t => t.trim() !== '')`), in order. */
  function NonBlank(texts: seq<string>): (r: seq<string>)
    ensures |r| <= |texts|
    ensures forall t :: t in r ==> !IsBlank(t)
    ensures forall i :: 0 <= i < |texts| && !IsBlank(texts[i]) ==> texts[i] in r
    ensures |r| == 0 <==> forall i :: 0 <= i < |texts| ==> IsBlank(texts[i])
    ensures |r| == |texts| <==> forall i :: 0 <= i < |texts| ==> !IsBlank(texts[i])
  {
    if texts == [] then []
    else
      var rest := NonBlank(texts[1..]);
      assert forall i :: 1 <= i < |texts| ==> texts[i] == texts[1..][i - 1];
      if IsBlank(texts[0]) then rest else [texts[0]] + rest
  }

  /** The number of filled values is the number of non-blank positions. */
  lemma NonBlankCount(texts: seq<string>)
    ensures |NonBlank(texts)| == |set i | 0 <= i < |texts| && !IsBlank(texts[i])|
  {
    NonBlankCountFrom(texts, 0);
    assert texts[0..] == texts;
  }

  /** NonBlankCount for the values from position `k` on. */
  lemma {:induction false} NonBlankCountFrom(texts: seq<string>, k: nat)
    requires k <= |texts|
    ensures |NonBlank(texts[k..])| == |set i | k <= i < |texts| && !IsBlank(texts[i])|
    decreases |texts| - k
  {
    var here := set i | k <= i < |texts| && !IsBlank(texts[i]);
    if k == |texts| {
      assert here == {};
    } else {
      NonBlankCountFrom(texts, k + 1);
      var later := set i | k + 1 <= i < |texts| && !IsBlank(texts[i]);
      assert texts[k..][1..] == texts[k + 1..];
      assert here == if IsBlank(texts[k]) then later else later + {k};
    }
  }

  /** 1 when the value is filled, 0 when it is blank. */
  function Filled(s: string): (n: nat)
    ensures n <= 1
    ensures n == 1 <==> !IsBlank(s)
  {
    if IsBlank(s) then 0 else 1
  }

  /** `Math.round(n / d * 100)` on exact integers: the nearest integer to
      100·n/d, a half rounding up. */
  function RoundPercent(n: nat, d: nat): (p: nat)
    requires d > 0
    ensures -(d as int) <= 2 * (100 * n - d * p) < d
    ensures n <= d ==> p <= 100
    ensures p == 0 <==> 200 * n < d
  {
    var p := (200 * n + d) / (2 * d);
    HalfUpQuotient(n, d, p);
    p
  }

  /** The arithmetic behind RoundPercent's contract. */
  lemma HalfUpQuotient(n: nat, d: nat, p: int)
    requires d > 0 && p == (200 * n + d) / (2 * d)
    ensures -(d as int) <= 2 * (100 * n - d * p) < d
    ensures n <= d ==> p <= 100
    ensures p == 0 <==> 200 * n < d
  {
    var a, m := 200 * n + d, 2 * d;
    var r := a % m;
    assert a == m * p + r && 0 <= r < m;
    assert m * p == 2 * (d * p);
    if n <= d && p > 100 {
      MulMonotone(d, 101, p);
    }
    if p > 0 {
      MulMonotone(m, 1, p);
    }
  }

  lemma MulMonotone(a: nat, b: int, c: int)
    requires b <= c
    ensures a * b <= a * c
  {
  }

  /** Every filled item the daily gauge counts: filled tasks, checked
      focus tags, a filled anchor and a filled win. */
  function DailyTotal(u: UiState): nat {
    |NonBlank([u.task1, u.task2, u.task3])| + |CheckedValues(u.focus)| + Filled(u.spiritualAnchor) + Filled(u.win)
  }

  /** The daily maximum: three tasks, five focus tags, the anchor, the win. */
  const DailyMax: nat := TaskCount + FocusMax + 1 + 1

  /** The daily percentage: the daily total out of ten, rounded to the
      nearest integer. On a page with at most five focus tags it lies
      in 0..100; it is 0 exactly when nothing is filled and 100 exactly when
      all three tasks, five focus tags, the anchor and the win are. */
  function DailyPercent(u: UiState): (p: nat)
    ensures -(DailyMax as int) <= 2 * (100 * DailyTotal(u) - DailyMax * p) < DailyMax
    ensures |u.focus| <= FocusMax ==> p <= 100
    ensures p == 0 <==>
      && IsBlank(u.task1) && IsBlank(u.task2) && IsBlank(u.task3)
      && (forall i :: 0 <= i < |u.focus| ==> !u.focus[i].checked)
      && IsBlank(u.spiritualAnchor) && IsBlank(u.win)
    ensures |u.focus| == FocusMax ==> (p == 100 <==>
      && !IsBlank(u.task1) && !IsBlank(u.task2) && !IsBlank(u.task3)
      && (forall i :: 0 <= i < |u.focus| ==> u.focus[i].checked)
      && !IsBlank(u.spiritualAnchor) && !IsBlank(u.win))
  {
    var tasks := [u.task1, u.task2, u.task3];
    assert tasks[0] == u.task1 && tasks[1] == u.task2 && tasks[2] == u.task3;
    RoundPercent(DailyTotal(u), DailyMax)
  }

  /** The weekly percentage: the share of non-blank day notes out of seven,
      rounded to the nearest integer. */
  function WeeklyPercent(u: UiState): (p: nat)
    ensures var n := |NonBlank(NoteTexts(u.dayNotes))|; -7 <= 2 * (100 * n - 7 * p) < 7
    ensures |u.dayNotes| <= |WeekDays| ==> p <= 100
    ensures p == 0 <==> forall i :: 0 <= i < |u.dayNotes| ==> IsBlank(u.dayNotes[i].text)
    ensures |u.dayNotes| == |WeekDays| ==> (p == 100 <==> forall i :: 0 <= i < |u.dayNotes| ==> !IsBlank(u.dayNotes[i].text))
  {
    var texts := NoteTexts(u.dayNotes);
    RoundPercent(|NonBlank(texts)|, |WeekDays|)
  }

  /** The texts of the day-note areas, in order. */
  function NoteTexts(notes: seq<DayNote>): (ts: seq<string>)
    ensures |ts| == |notes|
    ensures forall i :: 0 <= i < |notes| ==> ts[i] == notes[i].text
  {
    seq(|notes|, i requires 0 <= i < |notes| => notes[i].text)
  }

  /** The monthly maximum: five checklist items and four prompts. */
  const MonthlyMax: nat := |ChecklistItems| + PromptCount

  /** The monthly percentage: checked items plus non-blank prompts, out of
      nine, rounded to the nearest integer. */
  function MonthlyPercent(u: UiState): (p: nat)
    ensures var n := |CheckedValues(u.checklist)| + |NonBlank(u.prompts)|; -9 <= 2 * (100 * n - 9 * p) < 9
    ensures |u.checklist| + |u.prompts| <= MonthlyMax ==> p <= 100
    ensures p == 0 <==>
      && (forall i :: 0 <= i < |u.checklist| ==> !u.checklist[i].checked)
      && (forall i :: 0 <= i < |u.prompts| ==> IsBlank(u.prompts[i]))
    ensures |u.checklist| + |u.prompts| == MonthlyMax ==> (p == 100 <==>
      && (forall i :: 0 <= i < |u.checklist| ==> u.checklist[i].checked)
      && (forall i :: 0 <= i < |u.prompts| ==> !IsBlank(u.prompts[i])))
  {
    RoundPercent(|CheckedValues(u.checklist)| + |NonBlank(u.prompts)|, MonthlyMax)
  }

  /** The spiritual gauge: 100 when the anchor is filled, 0 otherwise. */
  function SpiritualPercent(u: UiState): (p: nat)
    ensures p == 0 || p == 100
    ensures p == 100 <==> !IsBlank(u.spiritualAnchor)
  {
    Filled(u.spiritualAnchor) * 100
  }

  /** The three background colours of a gauge. */
  datatype Band = PaleRed | PaleYellow | PaleGreen {

    /** The CSS colour the page paints. */
    function Hex(): string {
      match this
      case PaleRed => "#ffcdd2"
      case PaleYellow => "#fff9c4"
      case PaleGreen => "#c8e6c9"
    }

    /** The position of the band from low to high completion. */
    function Rank(): nat {
      match this
      case PaleRed => 0
      case PaleYellow => 1
      case PaleGreen => 2
    }
  }

  /** `getCompletionColor`: red below 30, yellow from 30 below 70, green
      from 70; each boundary belongs to the higher band. */
  function CompletionColor(percent: int): (b: Band)
    ensures b == PaleRed <==> percent < 30
    ensures b == PaleYellow <==> 30 <= percent < 70
    ensures b == PaleGreen <==> 70 <= percent
  {
    if percent < 30 then PaleRed
    else if percent < 70 then PaleYellow
    else PaleGreen
  }

  /** One displayed gauge: its percentage and the colour painted behind it. */
  datatype Gauge = Gauge(percent: nat, band: Band)

  /** The four gauges of the page. */
  datatype Gauges = Gauges(daily: Gauge, weekly: Gauge, monthly: Gauge, spiritual: Gauge)

  /** `updateCompletionPercentages`: each gauge shows its own section's
      percentage and is painted with that percentage's band; on a
      well-formed page every gauge lies in 0..100, and the spiritual gauge
      is never yellow. */
  function Completion(u: UiState): (g: Gauges)
    ensures g.daily.percent == DailyPercent(u) && g.weekly.percent == WeeklyPercent(u)
    ensures g.monthly.percent == MonthlyPercent(u) && g.spiritual.percent == SpiritualPercent(u)
    ensures WellFormed(u) ==>
      g.daily.percent <= 100 && g.weekly.percent <= 100 && g.monthly.percent <= 100 && g.spiritual.percent <= 100
    ensures g.spiritual.band != PaleYellow
    ensures g.spiritual.band == PaleGreen <==> !IsBlank(u.spiritualAnchor)
    ensures g.daily.band == CompletionColor(g.daily.percent)
    ensures g.weekly.band == CompletionColor(g.weekly.percent)
    ensures g.monthly.band == CompletionColor(g.monthly.percent)
  {
    var d := DailyPercent(u);
    var w := WeeklyPercent(u);
    var m := MonthlyPercent(u);
    var s := SpiritualPercent(u);
    Gauges(Gauge(d, CompletionColor(d)), Gauge(w, CompletionColor(w)),
           Gauge(m, CompletionColor(m)), Gauge(s, CompletionColor(s)))
  }
}
