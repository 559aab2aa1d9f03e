// The session report screen: a report of unknown shape (generated text
// parsed as JSON, or a stored session) is sanitised field by field into
// what the screen shows, with a fixed default for every field that is
// missing or of the wrong type, and each skill bar gets a colour by score.
module SalesLabFeedback {
  import opened Wrappers
  import opened JsValue

  /** The languages whose label tables carry the report labels. */
  const LabelLanguages: set<string> := {"en", "ko", "es", "pt-br"}

  /** The label table used: the screen's language when it has report
    * labels, English otherwise. */
  function LabelLanguage(language: string): (r: string)
    ensures r in LabelLanguages
    ensures r == language <==> language in LabelLanguages
    ensures r != language ==> r == "en"
  {
    if language in LabelLanguages then language else "en"
  }

  /** `(result || {})[key]`. */
  function Field(result: Option<Value>, key: string): (v: Option<Value>)
    ensures v.Some? ==> result.Some? && result.value.Obj? && key in result.value.fields
  {
    if result.Some? && result.value.Obj? then Get(result.value.fields, key) else None
  }

  const DefaultSummary: string := "No summary available."
  const DefaultPros: seq<Value> := [Str("Active Listening"), Str("Clear Value Proposition")]
  const DefaultImprovements: seq<Value> := [Str("Missed closing signal"), Str("Could ask more open questions")]

  function DefaultMission(): Value
  {
    Obj(map["title" := Str("Closing Techniques"), "xp" := Num(50)])
  }

  /** What the screen shows besides the chart. */
  datatype Report = Report(score: int, summary: string, pros: seq<Value>, improvements: seq<Value>, mission: Value)

  /** The sanitised report: a numeric score or 0, a string summary or the
    * default text, list fields or their two-item defaults, and a truthy
    * mission or the default one. */
  function SanitizeReport(result: Option<Value>): (r: Report)
    ensures (Field(result, "totalScore").Some? && Field(result, "totalScore").value.Num?) ==>
      r.score == Field(result, "totalScore").value.n
    ensures !(Field(result, "totalScore").Some? && Field(result, "totalScore").value.Num?) ==> r.score == 0
    ensures (Field(result, "summary").Some? && Field(result, "summary").value.Str?) ==>
      r.summary == Field(result, "summary").value.s
    ensures !(Field(result, "summary").Some? && Field(result, "summary").value.Str?) ==> r.summary == DefaultSummary
    ensures (Field(result, "pros").Some? && Field(result, "pros").value.Arr?) ==>
      r.pros == Field(result, "pros").value.items
    ensures !(Field(result, "pros").Some? && Field(result, "pros").value.Arr?) ==> r.pros == DefaultPros
    ensures (Field(result, "improvements").Some? && Field(result, "improvements").value.Arr?) ==>
      r.improvements == Field(result, "improvements").value.items
    ensures !(Field(result, "improvements").Some? && Field(result, "improvements").value.Arr?) ==>
      r.improvements == DefaultImprovements
    ensures Truthy(Field(result, "recommendedMission")) ==> Some(r.mission) == Field(result, "recommendedMission")
    ensures !Truthy(Field(result, "recommendedMission")) ==> r.mission == DefaultMission()
  {
    var score := Field(result, "totalScore");
    var summary := Field(result, "summary");
    var pros := Field(result, "pros");
    var cons := Field(result, "improvements");
    Report(
      if score.Some? && score.value.Num? then score.value.n else 0,
      if summary.Some? && summary.value.Str? then summary.value.s else DefaultSummary,
      if pros.Some? && pros.value.Arr? then pros.value.items else DefaultPros,
      if cons.Some? && cons.value.Arr? then cons.value.items else DefaultImprovements,
      Or(Field(result, "recommendedMission"), DefaultMission()))
  }

  /** A report without any field shows every default. */
  lemma EmptyReportDefaults(result: Option<Value>)
    requires result.None? || result == Some(Null) || result == Some(Obj(map[]))
    ensures SanitizeReport(result) == Report(0, DefaultSummary, DefaultPros, DefaultImprovements, DefaultMission())
  {
  }

  datatype ChartEntry = ChartEntry(subject: string, a: int, fullMark: int)

  /** The five skills shown when the report carries no scores. */
  const FallbackSubjects: seq<string> := ["Product Knowledge", "Objection Handling", "Empathy", "Policy", "Conversation"]

  /** One bar: a string subject or 'Unknown', a numeric score or 0, out
    * of 100. None is a null entry, whose field access throws. */
  function ChartEntryOf(s: Value): (e: Option<ChartEntry>)
    ensures e.None? <==> s.Null?
    ensures e.Some? ==> e.value.fullMark == 100
    ensures e.Some? ==> (e.value.subject == "Unknown" || (s.Obj? && Get(s.fields, "subject") == Some(Str(e.value.subject))))
    ensures e.Some? ==> (e.value.a == 0 || (s.Obj? && Get(s.fields, "A") == Some(Num(e.value.a))))
  {
    if s.Null? then None
    else
      var subject := if s.Obj? then Get(s.fields, "subject") else None;
      var a := if s.Obj? then Get(s.fields, "A") else None;
      Some(ChartEntry(
        if subject.Some? && subject.value.Str? then subject.value.s else "Unknown",
        if a.Some? && a.value.Num? then a.value.n else 0,
        100))
  }

  /** The scores list when it is a non-empty array, else nothing. */
  function RawScores(result: Option<Value>): (r: seq<Value>)
    ensures Field(result, "scores").Some? && Field(result, "scores").value.Arr? ==>
      r == Field(result, "scores").value.items
    ensures !(Field(result, "scores").Some? && Field(result, "scores").value.Arr?) ==> r == []
  {
    var scores := Field(result, "scores");
    if scores.Some? && scores.value.Arr? && |scores.value.items| > 0 then scores.value.items else []
  }

  /** The bars: one per raw score, in order, or the five fallback skills at
    * 0 when there is none. None when a raw score is null: the render
    * throws and the error boundary shows its message instead. */
  method ChartData(result: Option<Value>) returns (chart: Option<seq<ChartEntry>>)
    ensures chart.None? <==> exists i :: 0 <= i < |RawScores(result)| && RawScores(result)[i].Null?
    ensures chart.Some? && |RawScores(result)| > 0 ==>
      |chart.value| == |RawScores(result)|
      && forall i :: 0 <= i < |chart.value| ==> Some(chart.value[i]) == ChartEntryOf(RawScores(result)[i])
    ensures |RawScores(result)| == 0 ==>
      chart.Some? && |chart.value| == 5
      && forall i :: 0 <= i < 5 ==> chart.value[i] == ChartEntry(FallbackSubjects[i], 0, 100)
  {
    var raw := RawScores(result);
    var entries: seq<ChartEntry> := [];
    var i := 0;
    while i < |raw|
      invariant 0 <= i <= |raw|
      invariant |entries| == i
      invariant forall j :: 0 <= j < i ==> !raw[j].Null? && Some(entries[j]) == ChartEntryOf(raw[j])
    {
      var e := ChartEntryOf(raw[i]);
      if e.None? {
        return None;
      }
      entries := entries + [e.value];
      i := i + 1;
    }
    if |entries| == 0 {
      entries := entries + [
        ChartEntry("Product Knowledge", 0, 100),
        ChartEntry("Objection Handling", 0, 100),
        ChartEntry("Empathy", 0, 100),
        ChartEntry("Policy", 0, 100),
        ChartEntry("Conversation", 0, 100)];
    }
    return Some(entries);
  }

  datatype BarColour = Green | Yellow | Red

  /** Green from 80, yellow from 60, red below. */
  function BarColourOf(a: int): (c: BarColour)
    ensures c == Green <==> a >= 80
    ensures c == Yellow <==> 60 <= a < 80
    ensures c == Red <==> a < 60
  {
    if a >= 80 then Green else if a >= 60 then Yellow else Red
  }

  /** A higher score never gets a worse colour. */
  lemma BarColourMonotone(a: int, b: int)
    requires a <= b
    ensures BarColourOf(a) == Green ==> BarColourOf(b) == Green
    ensures BarColourOf(b) == Red ==> BarColourOf(a) == Red
  {
  }
}
