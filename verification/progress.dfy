/**
 * The per-student progress rules of the chat page: the saved level and its
 * pacing rules, the course-lesson cursor, the bounded score history, the
 * daily streak and the best-average high-water mark.
 *
 * Days are integer day numbers (the page's `YYYY-MM-DD` strings compare equal
 * exactly when the day numbers do); averages are exact `real`s.
 */
module Progress {
  import opened Common
  import opened Text
  import opened Json
  import opened ReportSchema

  // ---------------------------------------------------------------- stored integers

  /** `parseInt(stored || "0", 10)` with `NaN` read as 0: how the page reads the
      lesson cursor and the streak count back from storage. */
  function ReadInt(stored: Option<string>): int {
    var raw := stored.GetOr("");
    if raw == "" then 0   // `parseInt("0", 10)` is 0
    else match ParseInt(raw)
    case None => 0
    case Some(d) => d
  }

  /** Reading back what `String(n)` stored gives `n`. */
  lemma ReadIntRoundTrip(n: int)
    ensures ReadInt(Some(IntToString(n))) == n
  {
    ParseIntRoundTrip(n);
  }

  // ---------------------------------------------------------------- level

  datatype Level = Beginner | Medium | Advanced

  /** The value the level selector offers and `onChangeLevel` stores. */
  function LevelName(l: Level): string {
    match l
    case Beginner => "beginner"
    case Medium => "medium"
    case Advanced => "advanced"
  }

  /** Loading the saved level: lower-cased, one of the three names, otherwise
      beginner (also when nothing is saved or storage fails). */
  function ParseLevel(saved: Option<string>): (l: Level)
    ensures l == Advanced <==> Lower(saved.GetOr("")) == "advanced"
    ensures l == Medium <==> Lower(saved.GetOr("")) == "medium"
  {
    var s := Lower(saved.GetOr(""));
    if s == "advanced" then Advanced
    else if s == "medium" then Medium
    else Beginner
  }

  /** What `onChangeLevel` stores is loaded back as the same level. */
  lemma ParseLevelRoundTrip(l: Level)
    ensures ParseLevel(Some(LevelName(l))) == l
  {
    var n := LevelName(l);
    assert Lower(n) == n;
  }

  datatype Rules = Rules(title: string, speed: string)

  /** `getLevelRules` */
  function LevelRules(l: Level): Rules {
    match l
    case Advanced => Rules("Advanced", "normal")
    case Medium => Rules("Medium", "slow-medium")
    case Beginner => Rules("Beginner", "slow")
  }

  /** Each level has its own label and its own speed. */
  lemma LevelRulesDistinct(a: Level, b: Level)
    ensures LevelRules(a).title == LevelRules(b).title <==> a == b
    ensures LevelRules(a).speed == LevelRules(b).speed <==> a == b
  {
  }

  // ---------------------------------------------------------------- course cursor

  const Course: seq<string> := [
    "Introducing myself", "My family", "My school", "My best friend", "My daily routine",
    "At the grocery shop", "At the restaurant", "At the bus stop", "At the doctor", "My favorite food",
    "My hobbies", "Weather and seasons", "Shopping conversation", "Asking for directions",
    "Telephone conversation", "Ordering food", "Describing a picture", "Story telling",
    "Past tense speaking", "Future plans"
  ]

  /** The number of lessons in the course. */
  const CourseLength: nat := 20

  lemma CourseHasCourseLength()
    ensures |Course| == CourseLength
  {
  }

  /** The title of the lesson at 0-based position `i`. */
  function CourseTitle(i: int): string
    requires 0 <= i < CourseLength
  {
    CourseHasCourseLength();
    Course[i]
  }

  /** One call of `getCourseTopic`: the lesson number, its title (`None` where
      the page indexes outside the course and gets `undefined`), and the cursor
      value written back. */
  datatype Lesson = Lesson(number: int, title: Option<string>, stored: string)

  /** The guard on a cursor read from storage: one that has run past the end
      of the course starts over at 0. Only `>= 20` is guarded, so a negative
      cursor is kept as it is. */
  function Wrap(d: int): (r: int)
    ensures r < CourseLength
    ensures 0 <= d ==> 0 <= r
  {
    if d >= CourseLength then 0 else d
  }

  /** The cursor the page actually uses. */
  function EffectiveCursor(stored: Option<string>): (r: int)
    ensures r < CourseLength
  {
    Wrap(ReadInt(stored))
  }

  /** The lesson handed out at cursor `day`, and `String(day + 1)` written back. */
  function LessonAt(day: int): (r: Lesson)
    requires day < CourseLength
    ensures r.number == day + 1
    ensures 0 <= day ==> r.title == Some(CourseTitle(day))
    ensures day < 0 ==> r.title == None
  {
    Lesson(day + 1, if day >= 0 then Some(CourseTitle(day)) else None, IntToString(day + 1))
  }

  /** `getCourseTopic` */
  function CourseTopic(stored: Option<string>): Lesson {
    LessonAt(EffectiveCursor(stored))
  }

  /** For a stored cursor `d >= 0` the lesson handed out is `course[d']` with
      `d'` the guarded cursor, its number `d' + 1` lies in 1..20, and the
      cursor written back reads as `d' + 1`; a negative cursor yields no title. */
  lemma CourseTopicSpec(stored: Option<string>)
    ensures var r := CourseTopic(stored);
      && r.number == Wrap(ReadInt(stored)) + 1
      && (0 <= ReadInt(stored) ==> 1 <= r.number <= CourseLength && r.title == Some(Course[r.number - 1]))
      && (ReadInt(stored) < 0 ==> r.title == None)
      && ReadInt(Some(r.stored)) == r.number
  {
    var d := EffectiveCursor(stored);
    CourseHasCourseLength();
    ReadIntRoundTrip(d + 1);
  }

  /** The cursor written back is the one the next call reads: the next call
      hands out the lesson at `Wrap(day + 1)`. */
  lemma NextCallReadsBack(day: int)
    requires day < CourseLength
    ensures CourseTopic(Some(LessonAt(day).stored)) == LessonAt(Wrap(day + 1))
  {
    ReadIntRoundTrip(day + 1);
  }

  /** `resetProgress` stores the cursor `"0"`. */
  const ResetCursor: Option<string> := Some("0")

  /** After a reset the first lesson handed out is lesson 1, "Introducing myself". */
  lemma ResetStartsCourse()
    ensures EffectiveCursor(ResetCursor) == 0
    ensures CourseTopic(ResetCursor).number == 1
    ensures CourseTopic(ResetCursor).title == Some("Introducing myself")
  {
    assert IntToString(0) == "0";
    ReadIntRoundTrip(0);
  }

  /** Handing out `n` lessons in a row from cursor `e`, each call reading the
      cursor the previous one wrote back (`NextCallReadsBack`). The course is
      handed out in order and starts over after the last lesson: the `i`-th
      lesson is lesson `(e + i) % 20 + 1`. */
  method HandOutLessons(e: int, n: nat) returns (lessons: seq<Lesson>, cursor: int)
    requires 0 <= e < CourseLength
    ensures |lessons| == n
    ensures forall i :: 0 <= i < n ==>
      && lessons[i].number == (e + i) % CourseLength + 1
      && lessons[i].title == Some(CourseTitle((e + i) % CourseLength))
    ensures cursor == (e + n) % CourseLength
  {
    lessons, cursor := [], e;
    while |lessons| < n
      invariant |lessons| <= n
      invariant cursor == (e + |lessons|) % CourseLength
      invariant forall j :: 0 <= j < |lessons| ==>
        && lessons[j].number == (e + j) % CourseLength + 1
        && lessons[j].title == Some(CourseTitle((e + j) % CourseLength))
    {
      WrapIsNextModulo(e + |lessons|);
      lessons, cursor := lessons + [LessonAt(cursor)], Wrap(cursor + 1);
    }
  }

  /** Guarding the cursor after `+ 1` is counting modulo the course length. */
  lemma WrapIsNextModulo(k: nat)
    ensures Wrap(k % CourseLength + 1) == (k + 1) % CourseLength
  {
  }

  // ---------------------------------------------------------------- reports and history

  /** A score report as the page records it. The JSON-valued fields are taken
      from the reply as they are, so they hold whatever the reply held. */
  datatype Report = Report(
    id: string,
    ts: int,
    student: Json,
    level: Json,
    lesson: Json,
    scores: Json,
    strengths: seq<Json>,
    improvements: seq<Json>,
    corrected: seq<Json>,
    homework: Json)

  /** The page values the score request was made with. */
  datatype ScoreContext = ScoreContext(student: string, level: Level, topic: string)

  /** `Array.isArray(v) ? v : []` */
  function ArrayOrEmpty(v: Option<Json>): seq<Json> {
    if IsArray(v) then v.value.items else []
  }

  /** The report built from a JSON object reply; `id` is the fresh report id and
      `now` the clock in milliseconds. Each field is the reply's when that is
      truthy (an array, for the three lists), otherwise the page's fallback. */
  function BuildReport(json: Json, ctx: ScoreContext, id: string, now: int): Report {
    var j := Some(json);
    Report(
      id, now,
      Or(Get(j, "student"), JStr(ctx.student)),
      Or(Get(j, "level"), JStr(LevelName(ctx.level))),
      Or(Get(j, "lesson"), JStr(ctx.topic)),
      Or(Get(j, "scores"), JObj(map[])),
      ArrayOrEmpty(Get(j, "strengths")),
      ArrayOrEmpty(Get(j, "improvements")),
      ArrayOrEmpty(Get(j, "corrected_sentences")),
      Or(Get(j, "homework"), JStr("")))
  }

  /** A well-formed report with non-empty texts is recorded field for field,
      and its average lies between 1 and 5. */
  lemma BuildReportKeepsWellFormed(json: Json, ctx: ScoreContext, id: string, now: int)
    requires WellFormedReport(json)
    requires json.fields["student"].s != "" && json.fields["level"].s != ""
    requires json.fields["lesson"].s != "" && json.fields["homework"].s != ""
    ensures var r := BuildReport(json, ctx, id, now);
      && r.student == json.fields["student"] && r.level == json.fields["level"]
      && r.lesson == json.fields["lesson"] && r.scores == json.fields["scores"]
      && r.strengths == json.fields["strengths"].items
      && r.improvements == json.fields["improvements"].items
      && r.corrected == json.fields["corrected_sentences"].items
      && r.homework == json.fields["homework"]
      && Avg(r.scores).Some? && 1.0 <= Avg(r.scores).value <= 5.0
  {
    var r := BuildReport(json, ctx, id, now);
    assert r.scores == json.fields["scores"];
    WellFormedScoresAverage(r.scores);
  }

  const HistoryCap: nat := 10

  /** `addToHistory`: the new report first, then as much of the old history as
      fits in ten entries. */
  function AddToHistory(report: Report, history: seq<Report>): (h: seq<Report>)
    ensures |h| == Min(HistoryCap, |history| + 1)
    ensures h[0] == report
    ensures h[1..] == history[..|h| - 1]
  {
    ([report] + history)[..Min(HistoryCap, |history| + 1)]
  }

  function Reverse<T>(xs: seq<T>): (r: seq<T>)
    ensures |r| == |xs|
  {
    if xs == [] then [] else [xs[|xs| - 1]] + Reverse(xs[..|xs| - 1])
  }

  /** Recording `reports` one after another, oldest first. */
  function AddAll(history: seq<Report>, reports: seq<Report>): seq<Report> {
    if reports == [] then history
    else AddToHistory(reports[|reports| - 1], AddAll(history, reports[..|reports| - 1]))
  }

  /** The history is always the ten most recent reports, newest first. */
  lemma {:induction false} HistoryKeepsMostRecent(history: seq<Report>, reports: seq<Report>)
    requires |history| <= HistoryCap
    ensures AddAll(history, reports) == (Reverse(reports) + history)[..Min(HistoryCap, |reports| + |history|)]
    decreases |reports|
  {
    if reports != [] {
      var init := reports[..|reports| - 1];
      var last := reports[|reports| - 1];
      HistoryKeepsMostRecent(history, init);
      var s := Reverse(init) + history;
      var k := Min(HistoryCap, |init| + |history|);
      assert AddAll(history, init) == s[..k];
      assert AddAll(history, reports) == ([last] + s[..k])[..Min(HistoryCap, k + 1)];
      assert Reverse(reports) == [last] + Reverse(init);
      assert Reverse(reports) + history == [last] + s;
      var j := Min(HistoryCap, k + 1);
      assert j == Min(HistoryCap, |reports| + |history|);
      assert ([last] + s[..k])[..j] == ([last] + s)[..j];
    }
  }

  // ---------------------------------------------------------------- streak

  /** The streak counter and the day of the last successful score. */
  datatype Streak = Streak(count: int, last: Option<int>)

  /** `updateStreakOnSuccessfulScore` for a success on day `today`. */
  function UpdateStreak(s: Streak, today: int): (r: Streak)
    ensures r.last == Some(today)
    ensures s.last == Some(today) ==> r == s
    ensures s.last.None? ==> r.count == 1
    ensures s.last == Some(today - 1) ==> r.count == Max(1, s.count + 1)
    ensures s.last.Some? && s.last != Some(today) && s.last != Some(today - 1) ==> r.count == 1
  {
    match s.last
    case None => Streak(1, Some(today))
    case Some(d) =>
      if d == today then s
      else if d == today - 1 then Streak(Max(1, s.count + 1), Some(today))
      else Streak(1, Some(today))
  }

  /** A second success on the same day changes nothing. */
  lemma UpdateStreakSameDay(s: Streak, today: int)
    ensures UpdateStreak(UpdateStreak(s, today), today) == UpdateStreak(s, today)
  {
  }

  /** Successes on the days `days`, in order. */
  function StreakOver(s: Streak, days: seq<int>): Streak {
    if days == [] then s else UpdateStreak(StreakOver(s, days[..|days| - 1]), days[|days| - 1])
  }

  predicate Consecutive(days: seq<int>) {
    forall i :: 0 < i < |days| ==> days[i] == days[i - 1] + 1
  }

  /** Scoring on `n` consecutive days starting from no streak gives a streak of `n`. */
  lemma {:induction false} ConsecutiveDaysStreak(days: seq<int>)
    requires |days| > 0 && Consecutive(days)
    ensures StreakOver(Streak(0, None), days) == Streak(|days|, Some(days[|days| - 1]))
    decreases |days|
  {
    if |days| > 1 {
      var init := days[..|days| - 1];
      assert Consecutive(init);
      ConsecutiveDaysStreak(init);
    }
  }

  /** Missing a day starts over: a gap of two or more days resets the count to 1. */
  lemma GapResetsStreak(s: Streak, today: int)
    requires s.last.Some? && s.last.value < today - 1
    ensures UpdateStreak(s, today) == Streak(1, Some(today))
  {
  }

  // ---------------------------------------------------------------- best average

  /** The four scores that are numbers (`typeof x === "number"`), in order. */
  function ScoreValues(scores: Json): seq<real> {
    var s := Some(scores);
    NumbersOf([Get(s, "pronunciation"), Get(s, "grammar"), Get(s, "fluency"), Get(s, "confidence")])
  }

  function NumbersOf(vs: seq<Option<Json>>): seq<real> {
    if vs == [] then []
    else (if vs[0].Some? && vs[0].value.JNum? then [vs[0].value.n] else []) + NumbersOf(vs[1..])
  }

  function Sum(xs: seq<real>): real {
    if xs == [] then 0.0 else xs[0] + Sum(xs[1..])
  }

  function SeqMin(xs: seq<real>): real
    requires |xs| > 0
  {
    if |xs| == 1 then xs[0] else var m := SeqMin(xs[1..]); if xs[0] <= m then xs[0] else m
  }

  function SeqMax(xs: seq<real>): real
    requires |xs| > 0
  {
    if |xs| == 1 then xs[0] else var m := SeqMax(xs[1..]); if xs[0] >= m then xs[0] else m
  }

  /** Every element lies between the least and the greatest. */
  lemma {:induction false} SeqMinMaxBound(xs: seq<real>)
    requires |xs| > 0
    ensures forall i :: 0 <= i < |xs| ==> SeqMin(xs) <= xs[i] <= SeqMax(xs)
    decreases |xs|
  {
    if |xs| > 1 {
      SeqMinMaxBound(xs[1..]);
      forall i | 1 <= i < |xs|
        ensures SeqMin(xs) <= xs[i] <= SeqMax(xs)
      {
        assert xs[i] == xs[1..][i - 1];
      }
    }
  }

  /** A sum of `|xs|` values from `lo` to `hi` lies from `|xs| * lo` to `|xs| * hi`. */
  lemma {:induction false} SumWithin(xs: seq<real>, lo: real, hi: real)
    requires forall i :: 0 <= i < |xs| ==> lo <= xs[i] <= hi
    ensures |xs| as real * lo <= Sum(xs) <= |xs| as real * hi
    decreases |xs|
  {
    if xs != [] {
      var rest := xs[1..];
      assert forall i :: 0 <= i < |rest| ==> rest[i] == xs[i + 1];
      SumWithin(rest, lo, hi);
      var n := |rest| as real;
      assert |xs| as real == n + 1.0;
      assert (n + 1.0) * lo == n * lo + lo;
      assert (n + 1.0) * hi == n * hi + hi;
      assert Sum(xs) == xs[0] + Sum(rest);
      assert lo <= xs[0] <= hi;
    }
  }

  lemma SumBounds(xs: seq<real>)
    requires |xs| > 0
    ensures |xs| as real * SeqMin(xs) <= Sum(xs) <= |xs| as real * SeqMax(xs)
  {
    SeqMinMaxBound(xs);
    SumWithin(xs, SeqMin(xs), SeqMax(xs));
  }

  lemma DivBounds(lo: real, s: real, hi: real, n: real)
    requires n > 0.0 && n * lo <= s <= n * hi
    ensures lo <= s / n <= hi
  {
    var q := s / n;
    assert q * n == s;
  }

  /** `getAvg`: `null` exactly when none of the four scores is a number,
      otherwise the mean of those that are, which lies between their least
      and their greatest. */
  function Avg(scores: Json): (a: Option<real>)
    ensures a.None? <==> ScoreValues(scores) == []
    ensures a.Some? ==> SeqMin(ScoreValues(scores)) <= a.value <= SeqMax(ScoreValues(scores))
  {
    var vals := ScoreValues(scores);
    if vals == [] then None
    else
      SumBounds(vals);
      DivBounds(SeqMin(vals), Sum(vals), SeqMax(vals), |vals| as real);
      Some(Sum(vals) / |vals| as real)
  }

  lemma {:induction false} SeqMinMaxWithin(xs: seq<real>, lo: real, hi: real)
    requires |xs| > 0
    requires forall i :: 0 <= i < |xs| ==> lo <= xs[i] <= hi
    ensures lo <= SeqMin(xs) && SeqMax(xs) <= hi
    decreases |xs|
  {
    if |xs| > 1 {
      SeqMinMaxWithin(xs[1..], lo, hi);
    }
  }

  /** The four scores of a well-formed report are all counted and average to
      a value from 1 to 5. */
  lemma WellFormedScoresAverage(scores: Json)
    requires IsScores(scores)
    ensures |ScoreValues(scores)| == 4
    ensures Avg(scores).Some? && 1.0 <= Avg(scores).value <= 5.0
  {
    var m := scores.fields;
    var s := Some(scores);
    var vs := [Get(s, "pronunciation"), Get(s, "grammar"), Get(s, "fluency"), Get(s, "confidence")];
    assert vs[1..][1..][1..][1..] == [];
    assert NumbersOf(vs[1..][1..][1..]) == [m["confidence"].n];
    assert NumbersOf(vs[1..][1..]) == [m["fluency"].n, m["confidence"].n];
    assert NumbersOf(vs[1..]) == [m["grammar"].n, m["fluency"].n, m["confidence"].n];
    var vals := ScoreValues(scores);
    assert vals == [m["pronunciation"].n, m["grammar"].n, m["fluency"].n, m["confidence"].n];
    SeqMinMaxWithin(vals, 1.0, 5.0);
  }

  /** `updateBestOnSuccessfulScore`: the best average is replaced only by a
      strictly greater average, and a report without numeric scores leaves it. */
  function UpdateBest(best: Option<real>, scores: Json): (r: Option<real>)
    ensures Avg(scores).None? ==> r == best
    ensures r == best || r == Avg(scores)
    ensures best.Some? ==> r.Some? && r.value >= best.value
    ensures Avg(scores).Some? ==> r.Some? && r.value >= Avg(scores).value
    ensures r != best ==> best.None? || Avg(scores).value > best.value
  {
    match Avg(scores)
    case None => best
    case Some(a) => if best.None? || a > best.value then Some(a) else best
  }

  /** The best average after recording the reports whose scores are `ss`. */
  function BestOver(best: Option<real>, ss: seq<Json>): Option<real> {
    if ss == [] then best else UpdateBest(BestOver(best, ss[..|ss| - 1]), ss[|ss| - 1])
  }

  /** The best average is a high-water mark: it is at least the starting best
      and at least the average of every report recorded since. */
  lemma {:induction false} BestIsHighWaterMark(best: Option<real>, ss: seq<Json>)
    ensures best.Some? ==> BestOver(best, ss).Some? && BestOver(best, ss).value >= best.value
    ensures forall i :: 0 <= i < |ss| && Avg(ss[i]).Some? ==>
      BestOver(best, ss).Some? && BestOver(best, ss).value >= Avg(ss[i]).value
    decreases |ss|
  {
    if ss != [] {
      var init := ss[..|ss| - 1];
      BestIsHighWaterMark(best, init);
      forall i | 0 <= i < |ss| - 1 && Avg(ss[i]).Some?
        ensures BestOver(best, ss).Some? && BestOver(best, ss).value >= Avg(ss[i]).value
      {
        assert ss[i] == init[i];
      }
    }
  }

  // ---------------------------------------------------------------- recording a score

  /** What a successful score changes: history, streak and best average. */
  datatype Standing = Standing(history: seq<Report>, streak: Streak, best: Option<real>)

  /** The three updates a successful score makes, in the page's order. */
  function RecordReport(st: Standing, report: Report, today: int): (r: Standing)
    ensures r.history == AddToHistory(report, st.history)
    ensures r.streak == UpdateStreak(st.streak, today)
    ensures r.best == UpdateBest(st.best, report.scores)
  {
    Standing(AddToHistory(report, st.history), UpdateStreak(st.streak, today), UpdateBest(st.best, report.scores))
  }
}
