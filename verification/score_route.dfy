/**
 * `POST /api/score`: checks the server key and the request's transcript, asks
 * the language model for a speaking report in the report schema, reads the
 * report text out of the model's reply, parses it and fills in defaults.
 *
 * The model call is a parameter (`Upstream`), and so is `JSON.parse` applied
 * to the picked report text (`parse`, `None` when it throws). `errorText`
 * stands for the message of whatever exception reaches the route's outer
 * `catch`.
 */
module ScoreRoute {
  import opened Common
  import opened Text
  import opened Json
  import opened ReportSchema

  /** An HTTP reply: its status and its JSON body. */
  datatype Reply = Reply(status: int, body: Json)

  function ErrorBody(message: string): Json {
    JObj(map["error" := JStr(message)])
  }

  const MissingKey: string := "Missing OPENAI_API_KEY in .env.local"
  const TooShort: string := "Transcript is missing or too short. Let the student speak for 30–60 seconds first."
  const ScoringFailed: string := "OpenAI scoring failed"
  const NotJson: string := "Model did not return valid JSON text"
  const Crashed: string := "Score route crashed"

  /** The shortest transcript, after trimming, the route will score. */
  const MinTranscript: nat := 20

  function CrashReply(errorText: string): (r: Reply)
    ensures r.status == 500
  {
    Reply(500, JObj(map["error" := JStr(Crashed), "details" := JStr(errorText)]))
  }

  // ---------------------------------------------------------------- the request

  /** The four request fields the route reads. */
  datatype ScoreRequest = ScoreRequest(
    studentName: Option<Json>, lesson: Option<Json>, level: Option<Json>, transcript: string)

  /** The route either answers at once or goes on to call the model. */
  datatype Decision = Respond(reply: Reply) | Ask(request: ScoreRequest)

  /** A transcript the route accepts: a string whose trimmed length is at
      least `MinTranscript`. The length is counted in characters, which is
      JavaScript's `.length` only inside the Basic Multilingual Plane
      (TranscriptOkInBmp). */
  predicate TranscriptOk(t: Option<Json>) {
    t.Some? && t.value.JStr? && |Trim(t.value.s)| >= MinTranscript
  }

  /** For text in the Basic Multilingual Plane the gate is the route's
      `transcript.trim().length < 20` on UTF-16 units. */
  lemma TranscriptOkInBmp(t: string)
    requires InBmp(Trim(t))
    ensures TranscriptOk(Some(JStr(t))) <==> Utf16Length(Trim(t)) >= MinTranscript
  {
    Utf16LengthOfBmp(Trim(t));
  }

  /** `!apiKey`: an unset or empty environment variable. */
  predicate HasKey(apiKey: Option<string>) {
    apiKey.Some? && apiKey.value != ""
  }

  /** The checks before the model call. `body` is the parsed request body,
      `None` when it is not JSON (read then as `{}`); destructuring a `null`
      body throws. */
  function Validate(apiKey: Option<string>, body: Option<Json>, errorText: string): (d: Decision)
    ensures !HasKey(apiKey) ==> d == Respond(Reply(500, ErrorBody(MissingKey)))
    ensures HasKey(apiKey) && body == Some(JNull) ==> d == Respond(CrashReply(errorText))
    ensures HasKey(apiKey) && body != Some(JNull) && !TranscriptOk(Get(body, "transcript")) ==>
      d == Respond(Reply(400, ErrorBody(TooShort)))
    ensures d.Ask? <==> HasKey(apiKey) && body != Some(JNull) && TranscriptOk(Get(body, "transcript"))
    ensures d.Ask? ==>
      && Some(JStr(d.request.transcript)) == Get(body, "transcript")
      && d.request.studentName == Get(body, "studentName")
      && d.request.lesson == Get(body, "lesson")
      && d.request.level == Get(body, "level")
  {
    if !HasKey(apiKey) then Respond(Reply(500, ErrorBody(MissingKey)))
    else if body == Some(JNull) then Respond(CrashReply(errorText))
    else
      var t := Get(body, "transcript");
      if !TranscriptOk(t) then Respond(Reply(400, ErrorBody(TooShort)))
      else Ask(ScoreRequest(Get(body, "studentName"), Get(body, "lesson"), Get(body, "level"), t.value.s))
  }

  // ---------------------------------------------------------------- the model's reply

  /** What the model call produced: a thrown `fetch`, or a status and the body
      read as JSON (`null` when that fails). */
  datatype Upstream = Unreachable | Answered(status: int, data: Json)

  /** `r.ok` */
  predicate IsOk(status: int) {
    200 <= status <= 299
  }

  /** `parts[i]` is an `output_text` part and no part before it is one. */
  predicate FirstOutputTextAt(parts: seq<Json>, i: int) {
    && 0 <= i < |parts|
    && Get(Some(parts[i]), "type") == Some(JStr("output_text"))
    && forall j :: 0 <= j < i ==> Get(Some(parts[j]), "type") != Some(JStr("output_text"))
  }

  /** The first part whose `type` is `"output_text"`. */
  function FindOutputText(parts: seq<Json>): (r: Option<Json>)
    ensures r.Some? ==> r.value in parts && Get(r, "type") == Some(JStr("output_text"))
    ensures r.Some? ==> exists i :: FirstOutputTextAt(parts, i) && parts[i] == r.value
    ensures r.None? ==> forall i :: 0 <= i < |parts| ==> Get(Some(parts[i]), "type") != Some(JStr("output_text"))
  {
    if parts == [] then None
    else if Get(Some(parts[0]), "type") == Some(JStr("output_text")) then
      assert FirstOutputTextAt(parts, 0);
      Some(parts[0])
    else
      var r := FindOutputText(parts[1..]);
      assert r.Some? ==> exists i :: FirstOutputTextAt(parts, i) && parts[i] == r.value by {
        if r.Some? {
          var i :| FirstOutputTextAt(parts[1..], i) && parts[1..][i] == r.value;
          assert FirstOutputTextAt(parts, i + 1);
        }
      }
      r
  }

  /** `content?.find?.(…)`: only an array has `find`; an object carrying its own
      non-null `find` property makes the call throw (`Throws`). */
  datatype Pick = Picked(v: Option<Json>) | Throws

  function FindIn(content: Option<Json>): Pick {
    match content
    case Some(JArr(parts)) => Picked(FindOutputText(parts))
    case Some(JObj(m)) => if Nullish(Get(content, "find")) then Picked(None) else Throws
    case _ => Picked(None)
  }

  /** `data?.output?.[0]?.content?.find?.(…)?.text`, before `|| ""`. */
  function OutputText(data: Json): Pick {
    match FindIn(Get(Index0(Get(Some(data), "output")), "content"))
    case Throws => Throws
    case Picked(part) => Picked(Get(part, "text"))
  }

  /** The reply shape the model documents: the report text as the first
      `output_text` part of the first output item. */
  function DocumentedReply(before: seq<Json>, text: string, after: seq<Json>): Json {
    var part := JObj(map["type" := JStr("output_text"), "text" := JStr(text)]);
    JObj(map["output" := JArr([JObj(map["content" := JArr(before + [part] + after)])])])
  }

  /** A documented reply yields exactly its report text, whatever parts of other
      types come before it. */
  lemma OutputTextOfDocumentedReply(before: seq<Json>, text: string, after: seq<Json>)
    requires forall i :: 0 <= i < |before| ==> Get(Some(before[i]), "type") != Some(JStr("output_text"))
    ensures OutputText(DocumentedReply(before, text, after)) == Picked(Some(JStr(text)))
  {
    var part := JObj(map["type" := JStr("output_text"), "text" := JStr(text)]);
    FindSkipsBefore(before, part, after);
  }

  lemma {:induction false} FindSkipsBefore(before: seq<Json>, part: Json, after: seq<Json>)
    requires forall i :: 0 <= i < |before| ==> Get(Some(before[i]), "type") != Some(JStr("output_text"))
    requires Get(Some(part), "type") == Some(JStr("output_text"))
    ensures FindOutputText(before + [part] + after) == Some(part)
  {
    if before != [] {
      var xs := before + [part] + after;
      assert xs[0] == before[0];
      assert xs[1..] == before[1..] + [part] + after;
      FindSkipsBefore(before[1..], part, after);
    } else {
      assert before + [part] + after == [part] + after;
    }
  }

  // ---------------------------------------------------------------- defaults

  /** The four properties the route fills in. */
  datatype Names = Names(student: string, level: string, lesson: string, corrected: string)

  predicate Distinct(n: Names) {
    && n.student != n.level && n.student != n.lesson && n.student != n.corrected
    && n.level != n.lesson && n.level != n.corrected && n.lesson != n.corrected
  }

  function KeysOf(n: Names): set<string> {
    {n.student, n.level, n.lesson, n.corrected}
  }

  const Defaulted: Names := Names("student", "level", "lesson", "corrected_sentences")

  lemma DefaultedDistinct()
    ensures Distinct(Defaulted)
  {
  }

  /** The object's own property `key` is truthy. */
  predicate TruthyAt(m: map<string, Json>, key: string) {
    key in m && Truthy(Some(m[key]))
  }

  /** `obj[key] ||= v` */
  function OrAssign(m: map<string, Json>, key: string, v: Json): (r: map<string, Json>)
    ensures forall k :: k in r <==> k in m || k == key
    ensures TruthyAt(m, key) ==> r == m
    ensures !TruthyAt(m, key) ==> r[key] == v
    ensures forall k :: k in m && k != key ==> r[k] == m[k]
  {
    if TruthyAt(m, key) then m else m[key := v]
  }

  /** `if (!Array.isArray(obj[key])) obj[key] = []` */
  function ArrayOrEmpty(m: map<string, Json>, key: string): (r: map<string, Json>)
    ensures forall k :: k in r <==> k in m || k == key
    ensures key in m && m[key].JArr? ==> r == m
    ensures key in r && r[key].JArr?
    ensures forall k :: k in m && k != key ==> r[k] == m[k]
  {
    if key in m && m[key].JArr? then m else m[key := JArr([])]
  }

  /** The fallbacks: the request's values, else `"Student"` and `""`. */
  function StudentFallback(q: ScoreRequest): Json { Or(q.studentName, JStr("Student")) }
  function LevelFallback(q: ScoreRequest): Json { Or(q.level, JStr("")) }
  function LessonFallback(q: ScoreRequest): Json { Or(q.lesson, JStr("")) }

  /** The default filling under the property names `n`. */
  function FillUnder(m: map<string, Json>, n: Names, q: ScoreRequest): (r: map<string, Json>)
    ensures forall k :: k in r <==> k in m || k in KeysOf(n)
    ensures forall k :: k in m && k !in KeysOf(n) ==> r[k] == m[k]
    ensures n.corrected in r && r[n.corrected].JArr?
  {
    var m1 := OrAssign(m, n.student, StudentFallback(q));
    var m2 := OrAssign(m1, n.level, LevelFallback(q));
    var m3 := OrAssign(m2, n.lesson, LessonFallback(q));
    ArrayOrEmpty(m3, n.corrected)
  }

  /** The route's default filling on a parsed object: a falsy `student`,
      `level` or `lesson` takes the request's value (or a fixed fallback), and
      a `corrected_sentences` that is not an array becomes `[]`; nothing else
      changes. */
  function FillDefaults(m: map<string, Json>, q: ScoreRequest): (r: map<string, Json>)
    ensures forall k :: k in r <==> k in m || k in KeysOf(Defaulted)
    ensures forall k :: k in m && k !in KeysOf(Defaulted) ==> r[k] == m[k]
    ensures "corrected_sentences" in r && r["corrected_sentences"].JArr?
  {
    FillUnder(m, Defaulted, q)
  }

  lemma {:induction false} FillUnderFields(m: map<string, Json>, n: Names, q: ScoreRequest)
    requires Distinct(n)
    ensures var r := FillUnder(m, n, q);
      && r[n.student] == (if TruthyAt(m, n.student) then m[n.student] else StudentFallback(q))
      && r[n.level] == (if TruthyAt(m, n.level) then m[n.level] else LevelFallback(q))
      && r[n.lesson] == (if TruthyAt(m, n.lesson) then m[n.lesson] else LessonFallback(q))
      && r[n.corrected] == (if n.corrected in m && m[n.corrected].JArr? then m[n.corrected] else JArr([]))
  {
    var m1 := OrAssign(m, n.student, StudentFallback(q));
    var m2 := OrAssign(m1, n.level, LevelFallback(q));
    var m3 := OrAssign(m2, n.lesson, LessonFallback(q));
    assert m3[n.student] == m1[n.student];
  }

  /** Each defaulted property is the model's when that is truthy (an array
      for `corrected_sentences`) and the fallback otherwise. */
  lemma FillDefaultsFields(m: map<string, Json>, q: ScoreRequest)
    ensures var r := FillDefaults(m, q);
      && r["student"] == (if TruthyAt(m, "student") then m["student"] else StudentFallback(q))
      && r["level"] == (if TruthyAt(m, "level") then m["level"] else LevelFallback(q))
      && r["lesson"] == (if TruthyAt(m, "lesson") then m["lesson"] else LessonFallback(q))
      && r["corrected_sentences"] ==
           (if "corrected_sentences" in m && m["corrected_sentences"].JArr? then m["corrected_sentences"] else JArr([]))
  {
    DefaultedDistinct();
    FillUnderFields(m, Defaulted, q);
  }

  lemma {:induction false} FillUnderIdempotent(m: map<string, Json>, n: Names, q: ScoreRequest)
    requires Distinct(n)
    ensures FillUnder(FillUnder(m, n, q), n, q) == FillUnder(m, n, q)
  {
    var r := FillUnder(m, n, q);
    FillUnderFields(m, n, q);
    FillUnderFields(r, n, q);
    var r2 := FillUnder(r, n, q);
    assert r2.Keys == r.Keys;
    forall k | k in r
      ensures r2[k] == r[k]
    {
    }
  }

  /** After filling, `student` is truthy: the model's, or the request's, or
      `"Student"`. */
  lemma FilledStudentIsTruthy(m: map<string, Json>, q: ScoreRequest)
    ensures TruthyAt(FillDefaults(m, q), "student")
  {
    FillDefaultsFields(m, q);
  }

  /** Filling twice is filling once. */
  lemma FillDefaultsIdempotent(m: map<string, Json>, q: ScoreRequest)
    ensures FillDefaults(FillDefaults(m, q), q) == FillDefaults(m, q)
  {
    DefaultedDistinct();
    FillUnderIdempotent(m, Defaulted, q);
  }

  /** A well-formed report with non-empty names comes back unchanged. */
  lemma FillDefaultsKeepsReport(report: Json, q: ScoreRequest)
    requires WellFormedReport(report)
    requires report.fields["student"].s != "" && report.fields["level"].s != "" && report.fields["lesson"].s != ""
    ensures FillDefaults(report.fields, q) == report.fields
  {
    FillDefaultsFields(report.fields, q);
    var r := FillDefaults(report.fields, q);
    assert r.Keys == report.fields.Keys;
    forall k | k in r
      ensures r[k] == report.fields[k]
    {
    }
  }

  /** A well-formed report stays well formed when the request's names are
      strings. */
  lemma FillDefaultsKeepsWellFormed(report: Json, q: ScoreRequest)
    requires WellFormedReport(report)
    requires q.studentName.Some? && q.studentName.value.JStr?
    requires q.level.Some? && q.level.value.JStr?
    requires q.lesson.Some? && q.lesson.value.JStr?
    ensures WellFormedReport(JObj(FillDefaults(report.fields, q)))
  {
    FillDefaultsFields(report.fields, q);
  }

  // ---------------------------------------------------------------- the whole route

  /** Everything after the model call. */
  function Finish(q: ScoreRequest, up: Upstream, parse: Json -> Option<Json>, errorText: string): (r: Reply)
    ensures up.Unreachable? ==> r == CrashReply(errorText)
    ensures up.Answered? && !IsOk(up.status) ==>
      r == Reply(up.status, JObj(map["error" := JStr(ScoringFailed), "details" := up.data]))
    ensures up.Answered? && IsOk(up.status) && OutputText(up.data).Throws? ==> r == CrashReply(errorText)
    ensures r.status == 200 ==>
      && up.Answered? && IsOk(up.status)
      && OutputText(up.data).Picked? && Truthy(OutputText(up.data).v)
      && parse(OutputText(up.data).v.value).Some?
  {
    match up
    case Unreachable => CrashReply(errorText)
    case Answered(status, data) =>
      if !IsOk(status) then Reply(status, JObj(map["error" := JStr(ScoringFailed), "details" := data]))
      else match OutputText(data)
        case Throws => CrashReply(errorText)
        case Picked(text) =>
          var outText := Or(text, JStr(""));
          var parsed := if Truthy(text) then parse(text.value) else None;
          match parsed
          case None =>
            Reply(500, JObj(map["error" := JStr(NotJson),
                                "details" := JObj(map["outText" := outText, "raw" := data])]))
          case Some(JObj(m)) => Reply(200, JObj(FillDefaults(m, q)))
          case Some(JArr(xs)) => Reply(200, JArr(xs))
          case Some(_) => CrashReply(errorText)
  }

  /** `POST /api/score`. */
  function Post(apiKey: Option<string>, body: Option<Json>, up: Upstream,
                parse: Json -> Option<Json>, errorText: string): (r: Reply)
    ensures Validate(apiKey, body, errorText).Respond? ==> r == Validate(apiKey, body, errorText).reply
    ensures Validate(apiKey, body, errorText).Ask? ==> r == Finish(Validate(apiKey, body, errorText).request, up, parse, errorText)
  {
    match Validate(apiKey, body, errorText)
    case Respond(reply) => reply
    case Ask(q) => Finish(q, up, parse, errorText)
  }

  /** After the checks: a documented reply whose text parses to a
      well-formed report with non-empty names gives that report with 200. */
  lemma FinishPassesReport(q: ScoreRequest, before: seq<Json>, text: string, after: seq<Json>, status: int,
                           parse: Json -> Option<Json>, errorText: string, report: Json)
    requires IsOk(status)
    requires forall i :: 0 <= i < |before| ==> Get(Some(before[i]), "type") != Some(JStr("output_text"))
    requires text != "" && parse(JStr(text)) == Some(report)
    requires WellFormedReport(report)
    requires report.fields["student"].s != "" && report.fields["level"].s != "" && report.fields["lesson"].s != ""
    ensures Finish(q, Answered(status, DocumentedReply(before, text, after)), parse, errorText) == Reply(200, report)
  {
    OutputTextOfDocumentedReply(before, text, after);
    FillDefaultsKeepsReport(report, q);
  }

  /** The whole route: with the key set and a long enough transcript, a
      documented reply whose text parses to a well-formed report with
      non-empty names is passed to the caller as it is, with status 200. */
  lemma PostPassesReport(apiKey: Option<string>, body: Option<Json>, before: seq<Json>, text: string,
                         after: seq<Json>, status: int, parse: Json -> Option<Json>, errorText: string, report: Json)
    requires HasKey(apiKey) && body != Some(JNull) && TranscriptOk(Get(body, "transcript"))
    requires IsOk(status)
    requires forall i :: 0 <= i < |before| ==> Get(Some(before[i]), "type") != Some(JStr("output_text"))
    requires text != "" && parse(JStr(text)) == Some(report)
    requires WellFormedReport(report)
    requires report.fields["student"].s != "" && report.fields["level"].s != "" && report.fields["lesson"].s != ""
    ensures Post(apiKey, body, Answered(status, DocumentedReply(before, text, after)), parse, errorText) == Reply(200, report)
  {
    var q := Validate(apiKey, body, errorText).request;
    FinishPassesReport(q, before, text, after, status, parse, errorText, report);
  }
}
