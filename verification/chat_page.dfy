/**
 * The chat page as one immutable record driven by events: the voice-session
 * controller (start with its guards and asynchronous steps, control-channel
 * open, the ten-minute deadline, stop and close), the transcript, the level
 * selector, the course cursor and the score request with what a successful
 * score records.
 *
 * Every `await` of `startTalking` is an event of its own (`Unlocked`,
 * `MicGranted`, `TokenArrived`, `OfferSet`, `AnswerArrived`, `RemoteSet`) and
 * a rejected `await` is `StepFailed` (`unlockAudio` catches its own errors,
 * so the audio unlock never fails). Storage is the `Saved` record of the
 * student's slots; clocks are event parameters (milliseconds `now`, day
 * numbers `today`). An event whose control is disabled or whose handler is
 * not installed leaves the page as it is.
 */
module ChatPage {
  import opened Common
  import opened Text
  import opened Json
  import opened Progress
  import Transcript
  import ScoreRoute
  import RealtimeRoute

  /** The status line the page shows. `"Stopping..."` and `"Error"` are always
      overwritten by `cleanup`'s `"Idle"` within the same handler, so they
      never show and are not listed. */
  datatype Status =
    | Idle | Connecting | ConnectingMic | ConnectingToken | ConnectingWebrtc | ConnectingSdp
    | Live | Connected | Disconnected

  function StatusText(s: Status): string {
    match s
    case Idle => "Idle"
    case Connecting => "Connecting..."
    case ConnectingMic => "Connecting... (mic)"
    case ConnectingToken => "Connecting... (token)"
    case ConnectingWebrtc => "Connecting... (webrtc)"
    case ConnectingSdp => "Connecting... (SDP)"
    case Live => "Live 🎤"
    case Connected => "Connected ✅"
    case Disconnected => "Disconnected"
  }

  /** The error line. The texts of thrown errors that quote a reply body are
      given by their fixed part. */
  datatype Fault =
    | NoFault
    | Thrown(message: string)
    | InsecureContext
    | NoMicrophone
    | TokenRejected(status: int)
    | TokenMissing
    | AnswerRejected(status: int)
    | AnswerMissing
    | ChannelError
    | TranscriptTooShort
    | ScoreRejected(status: int)
    | ScoreNotJson

  function FaultText(f: Fault): string {
    match f
    case NoFault => ""
    case Thrown(m) => m
    case InsecureContext => "Microphone needs HTTPS (secure connection). Open the https link."
    case NoMicrophone => "Microphone not available. Use Chrome on mobile and allow mic permission."
    case TokenRejected(_) => "POST /api/realtime failed"
    case TokenMissing => "Token missing from /api/realtime."
    case AnswerRejected(_) => "PUT /api/realtime failed"
    case AnswerMissing => "Missing answer sdp from /api/realtime."
    case ChannelError => "Data channel error"
    case TranscriptTooShort => "Transcript too short. Start Voice and speak 30–60 seconds first."
    case ScoreRejected(_) => "Score API failed"
    case ScoreNotJson => "Score API returned non-JSON"
  }

  /** The `await` the start sequence is suspended at. */
  datatype Pending = NoStep | Unlocking | AwaitMic | AwaitToken | AwaitOffer | AwaitAnswer | AwaitRemote

  /** The control channel `dcRef` holds: none, created but not open, open, or
      closed by the remote side (the reference is kept). */
  datatype Channel = NoChannel | Created | Open | Closed

  /** What `dc.onopen` sends: the instructions are built from the student, the
      level's rules and the lesson title. */
  datatype ControlMessage =
    | SessionUpdate(student: string, rules: Rules, title: Option<string>)
    | ResponseCreate

  datatype ScoreStatus = Blank | Scoring | Ready

  /** A reply as the page reads it: status and the body parsed as JSON
      (`None` for an empty or non-JSON body). */
  datatype Response = Response(status: int, json: Option<Json>)

  function FromRoute(status: int, body: Json): Response {
    Response(status, Some(body))
  }

  /** The values the score request is sent with. */
  datatype ScoreCall = ScoreCall(level: Level, topic: string, transcript: string)

  /** The student's storage slots. */
  datatype Saved = Saved(
    lessonDay: Option<string>,
    level: Option<string>,
    lockDay: Option<int>,
    standing: Standing)

  /** The voice session's side of the page: the status line, the two flags,
      where the start sequence is suspended, the level it was started with,
      and the resources the refs hold (`mic`: `localStreamRef` holds a live
      microphone stream, `pc`: `pcRef` holds an open peer connection, and the
      control channel). `lostStreams` and `lostPeers` count live streams and
      open connections that no ref reaches any more, so that nothing can
      release them. `staleChannels` counts channels closed by `cleanup` whose
      `onclose` has not fired yet. */
  datatype Link = Link(
    status: Status,
    connecting: bool,
    connected: bool,
    step: Pending,
    sessionLevel: Level,
    mic: bool,
    pc: bool,
    lostStreams: nat,
    lostPeers: nat,
    dc: Channel,
    staleChannels: nat)

  /** The session timer: whether the interval runs, `sessionStartedAtRef`,
      and `timeLeft` in seconds. */
  datatype Timer = Timer(ticking: bool, startedAt: Option<int>, timeLeft: Option<int>)

  const Stopped: Timer := Timer(false, None, None)

  /** The score panel: its status line, the last score object, the request in
      flight (`scoring` is `call.Some?`) and the selected report. */
  datatype ScoreUi = ScoreUi(status: ScoreStatus, obj: Option<Json>, call: Option<ScoreCall>, selected: Option<string>)

  datatype Page = Page(
    student: string,
    saved: Saved,
    level: Level,
    link: Link,
    timer: Timer,
    fault: Fault,
    sent: seq<ControlMessage>,
    lesson: Option<Lesson>,
    topic: string,
    transcript: string,
    score: ScoreUi)

  datatype Event =
    | Start(today: int, secure: bool, hasMic: bool)
    | Unlocked
    | MicGranted
    | TokenArrived(r: Response)
    | OfferSet
    | AnswerArrived(r: Response)
    | RemoteSet
    | StepFailed(message: string)
    | ChannelOpen(now: int, today: int)
    | Tick(now: int)
    | Frame(frame: Option<Json>)
    | ChannelFault
    | ChannelClosed(current: bool)
    | Stop
    | ChangeLevel(l: Level)
    | ResetProgress
    | RequestScore
    | ScoreArrived(r: Response, id: string, now: int, today: int)
    | ScoreFailed(message: string)

  /** The session length in seconds. */
  const SessionSeconds: int := 600

  /** The shortest trimmed transcript the page sends for scoring. */
  const MinTranscript: nat := 20

  const LimitLine: string := "SYSTEM: Session limit reached (10 minutes)."

  // ---------------------------------------------------------------- the page on mount

  /** The page after its mount effects: the saved level read back, no session,
      an empty transcript. */
  function Initial(student: string, saved: Saved): (p: Page)
    ensures p.level == ParseLevel(saved.level) && p.saved == saved
    ensures !p.link.connecting && !p.link.connected && p.link.status == Idle && p.transcript == []
    ensures p.link.lostStreams == 0 && p.link.lostPeers == 0
  {
    var l := ParseLevel(saved.level);
    Page(student, saved, l, Link(Idle, false, false, NoStep, l, false, false, 0, 0, NoChannel, 0),
         Stopped, NoFault, [], None, "", "", ScoreUi(Blank, None, None, None))
  }

  /** What the controller keeps true between events. */
  ghost predicate Inv(p: Page) {
    && !(p.link.connecting && p.link.connected)
    && (p.link.connected ==> p.link.dc == Open && p.link.step == NoStep)
    && (p.timer.ticking <==> p.timer.timeLeft.Some?)
    && (p.timer.ticking ==> p.link.connected && p.timer.startedAt.Some?)
    && (p.timer.timeLeft.Some? ==> p.timer.timeLeft.value >= 0)
  }

  lemma InitialInv(student: string, saved: Saved)
    ensures Inv(Initial(student, saved))
  {
  }

  predicate Idle?(l: Link) {
    !l.connecting && !l.connected
  }

  // ---------------------------------------------------------------- handlers

  /** `cleanup`: closes the channel and the connection the refs hold, stops
      the microphone stream the ref holds, clears both flags and shows "Idle".
      Streams and connections no ref reaches stay as they are. Closing a
      channel that is created or open still fires its `onclose` later. */
  function Cleanup(l: Link): (r: Link)
    ensures !r.connecting && !r.connected && r.status == Idle
    ensures r.dc == NoChannel && !r.pc && !r.mic
    ensures r.lostStreams == l.lostStreams && r.lostPeers == l.lostPeers
    ensures r.step == l.step && r.sessionLevel == l.sessionLevel
  {
    var closing := if l.dc == Created || l.dc == Open then 1 else 0;
    l.(dc := NoChannel, pc := false, mic := false, staleChannels := l.staleChannels + closing,
       connected := false, connecting := false, status := Idle)
  }

  /** Cleaning up twice is cleaning up once. */
  lemma CleanupIdempotent(l: Link)
    ensures Cleanup(Cleanup(l)) == Cleanup(l)
  {
  }

  /** The `catch` of `startTalking`: the error shown, then `cleanup`; the
      start sequence is abandoned. */
  function Fail(p: Page, f: Fault): (r: Page)
    ensures !r.link.connecting && !r.link.connected && r.link.status == Idle && r.link.step == NoStep
    ensures r.link.dc == NoChannel && !r.link.pc && !r.link.mic && r.fault == f
    ensures r.saved == p.saved && r.transcript == p.transcript && r.timer == p.timer
  {
    p.(fault := f, link := Cleanup(p.link.(step := NoStep)))
  }

  /** `stopTalking`: clears the error and the timer, then `cleanup`. */
  function StopTalking(p: Page): (r: Page)
    ensures !r.link.connected && !r.link.connecting && r.link.status == Idle
    ensures r.link.dc == NoChannel && !r.link.mic && r.timer == Stopped && r.fault == NoFault
    ensures r.saved == p.saved && r.transcript == p.transcript
  {
    p.(fault := NoFault, timer := Stopped, link := Cleanup(p.link))
  }

  /** `endSessionDueToLimit`: the limit line, then `stopTalking`. */
  function EndForLimit(p: Page): Page {
    StopTalking(p.(transcript := Transcript.Append(p.transcript, LimitLine)))
  }

  /** `startTalking` up to its first `await`. */
  function StartTalking(p: Page, today: int, secure: bool, hasMic: bool): Page {
    var q := p.(fault := NoFault, score := p.score.(obj := None, status := Blank));
    if !Idle?(q.link) then q
    else
      var q := q.(link := q.link.(connecting := true, status := Connecting, sessionLevel := q.level));
      if !secure then Fail(q, InsecureContext)
      else if !hasMic then Fail(q, NoMicrophone)
      else if q.saved.lockDay == Some(today) then q.(link := q.link.(connecting := false, status := Idle))
      else q.(link := q.link.(step := Unlocking))
  }

  /** The `SYSTEM:` line written when the lesson is handed out. */
  function SystemLine(student: string, rules: Rules, lesson: Lesson): string {
    "SYSTEM: Student=" + student + ", Level=" + rules.title + ", Lesson=" + lesson.stored
      + " (" + TitleText(lesson.title) + ")"
  }

  /** A title, or `undefined` outside the course. */
  function TitleText(t: Option<string>): string {
    t.GetOr("undefined")
  }

  /** The topic line `getCourseTopic` shows. */
  function TopicLine(lesson: Lesson): string {
    "Lesson " + lesson.stored + ": " + TitleText(lesson.title)
  }

  /** The microphone is granted: the new stream goes into `localStreamRef`
      (a stream the ref still held is no longer reachable), the lesson is
      handed out and noted in the transcript, and the token is requested. */
  function OnMic(p: Page): Page {
    var lesson := CourseTopic(p.saved.lessonDay);
    var line := SystemLine(p.student, LevelRules(p.link.sessionLevel), lesson);
    p.(lesson := Some(lesson), topic := TopicLine(lesson),
       saved := p.saved.(lessonDay := Some(lesson.stored)),
       transcript := Transcript.Append(p.transcript, line),
       link := p.link.(mic := true, lostStreams := p.link.lostStreams + (if p.link.mic then 1 else 0),
                       status := ConnectingToken, step := AwaitToken))
  }

  /** `getEphemeralToken` accepts an ok reply whose JSON has a truthy `value`. */
  predicate TokenAccepted(r: Response) {
    RealtimeRoute.IsOk(r.status) && Truthy(Get(r.json, "value"))
  }

  /** The SDP reply is used when it is ok and its JSON has a truthy `sdp`. */
  predicate AnswerAccepted(r: Response) {
    RealtimeRoute.IsOk(r.status) && Truthy(Get(r.json, "sdp"))
  }

  /** An accepted token: the new connection goes into `pcRef` (a connection
      the ref still held is no longer reachable) and its control channel into
      `dcRef`. */
  function OnToken(p: Page, r: Response): Page {
    if !RealtimeRoute.IsOk(r.status) then Fail(p, TokenRejected(r.status))
    else if !Truthy(Get(r.json, "value")) then Fail(p, TokenMissing)
    else p.(link := p.link.(status := ConnectingWebrtc, pc := true,
                            lostPeers := p.link.lostPeers + (if p.link.pc then 1 else 0),
                            dc := Created, step := AwaitOffer))
  }

  function OnAnswer(p: Page, r: Response): Page {
    if !RealtimeRoute.IsOk(r.status) then Fail(p, AnswerRejected(r.status))
    else if !Truthy(Get(r.json, "sdp")) then Fail(p, AnswerMissing)
    else p.(link := p.link.(step := AwaitRemote))
  }

  /** `dc.onopen` */
  function OnOpen(p: Page, now: int, today: int): Page {
    var title := if p.lesson.Some? then p.lesson.value.title else None;
    p.(link := p.link.(connected := true, connecting := false, status := Connected, dc := Open),
       timer := Timer(true, Some(now), Some(SessionSeconds)),
       saved := p.saved.(lockDay := Some(today)),
       sent := p.sent + [SessionUpdate(p.student, LevelRules(p.link.sessionLevel), title), ResponseCreate])
  }

  /** The seconds left at `now` for a session that started at `started`. */
  function Remaining(started: int, now: int): int {
    SessionSeconds - (now - started) / 1000
  }

  /** One run of the timer's interval. */
  function OnTick(p: Page, now: int): Page
    requires p.timer.startedAt.Some?
  {
    var remaining := Remaining(p.timer.startedAt.value, now);
    if remaining <= 0 then EndForLimit(p.(timer := Timer(false, p.timer.startedAt, Some(0))))
    else p.(timer := p.timer.(timeLeft := Some(remaining)))
  }

  /** `dc.onclose`: both flags cleared, "Disconnected", the timer stopped. The
      connection, the channel reference and the microphone are kept. */
  function OnClose(p: Page, current: bool): Page {
    var l := p.link.(connected := false, connecting := false, status := Disconnected);
    var l := if current then l.(dc := Closed)
             else l.(staleChannels := if l.staleChannels > 0 then l.staleChannels - 1 else 0);
    p.(link := l, timer := p.timer.(ticking := false, timeLeft := None))
  }

  /** The page's fallbacks for the report: its own values when the request
      was made. */
  function Context(p: Page, c: ScoreCall): ScoreContext {
    ScoreContext(p.student, c.level, c.topic)
  }

  /** `requestSpeakingScore` up to the request. */
  function RequestSpeakingScore(p: Page): Page {
    var q := p.(fault := NoFault, score := p.score.(obj := None));
    var t := Trim(q.transcript);
    if |t| < MinTranscript then q.(fault := TranscriptTooShort)
    else q.(score := q.score.(status := Scoring, call := Some(ScoreCall(q.level, q.topic, t))))
  }

  /** The score button: ignored while a request is in flight. */
  function ScoreButton(p: Page): Page {
    if p.score.call.Some? then p else RequestSpeakingScore(p)
  }

  /** The request's failure: no score shown, the error, not scoring. */
  function ScoreFail(p: Page, f: Fault): Page {
    p.(fault := f, score := p.score.(status := Blank, call := None))
  }

  /** The score reply: an ok reply with a JSON object (or array) becomes a
      report, recorded in history, streak and best. */
  function OnScore(p: Page, c: ScoreCall, r: Response, id: string, now: int, today: int): Page {
    if !ScoreRoute.IsOk(r.status) then ScoreFail(p, ScoreRejected(r.status))
    else if !IsObjectLike(r.json) then ScoreFail(p, ScoreNotJson)
    else
      var report := BuildReport(r.json.value, Context(p, c), id, now);
      p.(score := ScoreUi(Ready, r.json, None, Some(id)),
         saved := p.saved.(standing := RecordReport(p.saved.standing, report, today)))
  }

  // ---------------------------------------------------------------- events

  /** One event. The page's controls are gated as the page renders them:
      Start only while not connected and not connecting, Stop only while
      connected, the level only while neither, the score button only while
      not scoring. */
  function Step(p: Page, e: Event): Page {
    match e
    case Start(today, secure, hasMic) =>
      if !Idle?(p.link) || p.link.step != NoStep then p else StartTalking(p, today, secure, hasMic)
    case Unlocked =>
      if p.link.step == Unlocking then p.(link := p.link.(status := ConnectingMic, step := AwaitMic)) else p
    case MicGranted =>
      if p.link.step == AwaitMic then OnMic(p) else p
    case TokenArrived(r) =>
      if p.link.step == AwaitToken then OnToken(p, r) else p
    case OfferSet =>
      if p.link.step == AwaitOffer then p.(link := p.link.(status := ConnectingSdp, step := AwaitAnswer)) else p
    case AnswerArrived(r) =>
      if p.link.step == AwaitAnswer then OnAnswer(p, r) else p
    case RemoteSet =>
      if p.link.step == AwaitRemote then p.(link := p.link.(status := Live, step := NoStep)) else p
    case StepFailed(m) =>
      if p.link.step == NoStep || p.link.step == Unlocking then p else Fail(p, Thrown(m))
    case ChannelOpen(now, today) =>
      if p.link.dc == Created && p.link.step == NoStep then OnOpen(p, now, today) else p
    case Tick(now) =>
      if p.timer.ticking && p.timer.startedAt.Some? then OnTick(p, now) else p
    case Frame(frame) =>
      if p.link.dc == Open then p.(transcript := Transcript.OnMessage(p.transcript, frame)) else p
    case ChannelFault =>
      if p.link.dc == Created || p.link.dc == Open then p.(fault := ChannelError) else p
    case ChannelClosed(current) =>
      if current && (p.link.dc == Created || p.link.dc == Open) then OnClose(p, true)
      else if !current && p.link.staleChannels > 0 then OnClose(p, false)
      else p
    case Stop =>
      if p.link.connected then StopTalking(p) else p
    case ChangeLevel(l) =>
      if !Idle?(p.link) then p
      else p.(level := l, saved := p.saved.(level := Some(LevelName(l))))
    case ResetProgress =>
      p.(saved := p.saved.(lessonDay := ResetCursor), topic := "")
    case RequestScore =>
      ScoreButton(p)
    case ScoreArrived(r, id, now, today) =>
      if p.score.call.Some? then OnScore(p, p.score.call.value, r, id, now, today) else p
    case ScoreFailed(m) =>
      if p.score.call.Some? then ScoreFail(p, Thrown(m)) else p
  }

  function Run(p: Page, es: seq<Event>): Page
    decreases |es|
  {
    if es == [] then p else Run(Step(p, es[0]), es[1..])
  }


  // ---------------------------------------------------------------- properties

  /** Every event keeps the controller's invariant. */
  lemma StepPreservesInv(p: Page, e: Event)
    requires Inv(p)
    ensures Inv(Step(p, e))
  {
    if StartEvent(e) {
      StartPreservesInv(p, e);
    } else {
      SessionPreservesInv(p, e);
    }
  }

  /** The events of the start sequence. */
  predicate StartEvent(e: Event) {
    e.Start? || e.Unlocked? || e.MicGranted? || e.TokenArrived? || e.OfferSet?
    || e.AnswerArrived? || e.RemoteSet? || e.StepFailed?
  }

  lemma StartPreservesInv(p: Page, e: Event)
    requires Inv(p) && StartEvent(e)
    ensures Inv(Step(p, e))
  {
  }

  lemma SessionPreservesInv(p: Page, e: Event)
    requires Inv(p) && !StartEvent(e)
    ensures Inv(Step(p, e))
  {
  }

  /** The transcript only grows: no event removes or rewrites what is there. */
  lemma TranscriptOnlyGrows(p: Page, e: Event)
    ensures p.transcript <= Step(p, e).transcript
  {
    if e.Frame? {
      Transcript.OnMessageAppends(p.transcript, e.frame);
    }
  }

  /** The daily lock is written only when the control channel opens, and then
      with today's day. */
  lemma LockWrittenOnlyOnOpen(p: Page, e: Event)
    ensures Step(p, e).saved.lockDay != p.saved.lockDay ==>
      e.ChannelOpen? && Step(p, e).saved.lockDay == Some(e.today)
  {
  }

  /** History, streak and best change only when an ok score reply with a JSON
      object or array arrives for a pending request; a rejected or non-JSON
      reply leaves them as they were. */
  lemma StandingChangesOnlyOnScore(p: Page, e: Event)
    ensures Step(p, e).saved.standing != p.saved.standing ==>
      && e.ScoreArrived? && p.score.call.Some?
      && ScoreRoute.IsOk(e.r.status) && IsObjectLike(e.r.json)
  {
  }

  lemma {:induction false} RunPreservesInv(p: Page, es: seq<Event>)
    requires Inv(p)
    ensures Inv(Run(p, es))
    decreases |es|
  {
    if es != [] {
      StepPreservesInv(p, es[0]);
      RunPreservesInv(Step(p, es[0]), es[1..]);
    }
  }

  lemma {:induction false} RunTranscriptOnlyGrows(p: Page, es: seq<Event>)
    ensures p.transcript <= Run(p, es).transcript
    decreases |es|
  {
    if es != [] {
      TranscriptOnlyGrows(p, es[0]);
      RunTranscriptOnlyGrows(Step(p, es[0]), es[1..]);
    }
  }

  /** A successful score records the report built from the reply, with the
      page's level and topic at request time as fallbacks. */
  lemma ScoreRecordsReport(p: Page, r: Response, id: string, now: int, today: int)
    requires p.score.call.Some? && ScoreRoute.IsOk(r.status) && IsObjectLike(r.json)
    ensures var q := Step(p, ScoreArrived(r, id, now, today));
      var report := BuildReport(r.json.value, Context(p, p.score.call.value), id, now);
      && q.saved.standing.history == AddToHistory(report, p.saved.standing.history)
      && q.saved.standing.streak == UpdateStreak(p.saved.standing.streak, today)
      && q.saved.standing.best == UpdateBest(p.saved.standing.best, report.scores)
      && q.score == ScoreUi(Ready, r.json, None, Some(id))
  {
  }

  /** Start while a session is connecting or connected only clears the error
      and the score display. */
  lemma StartWhileBusy(p: Page, today: int, secure: bool, hasMic: bool)
    requires !Idle?(p.link)
    ensures StartTalking(p, today, secure, hasMic) == p.(fault := NoFault, score := p.score.(obj := None, status := Blank))
  {
  }

  /** A second session on the same day returns to "Idle" without asking for
      the microphone, and nothing is stored. */
  lemma SameDayLockBlocks(p: Page, today: int)
    requires Idle?(p.link) && p.link.step == NoStep
    requires p.saved.lockDay == Some(today)
    ensures var r := Step(p, Start(today, true, true));
      && Idle?(r.link) && r.link.status == Idle && r.link.step == NoStep
      && r.link.mic == p.link.mic && r.saved == p.saved && r.transcript == p.transcript
  {
  }

  /** Otherwise Start begins the sequence. */
  lemma StartBegins(p: Page, today: int)
    requires Idle?(p.link) && p.link.step == NoStep
    requires p.saved.lockDay != Some(today)
    ensures var r := Step(p, Start(today, true, true));
      && r.link.connecting && r.link.status == Connecting && r.link.step == Unlocking && r.saved == p.saved
      && r.link.mic == p.link.mic && r.link.pc == p.link.pc
      && r.link.lostStreams == p.link.lostStreams && r.link.lostPeers == p.link.lostPeers
  {
  }

  /** A rejected step at any point ends in `cleanup`, with the lock unwritten. */
  lemma StepFailedCleansUp(p: Page, message: string)
    requires p.link.step != NoStep && p.link.step != Unlocking
    ensures var r := Step(p, StepFailed(message));
      && Idle?(r.link) && r.link.status == Idle && r.link.step == NoStep
      && r.link.dc == NoChannel && !r.link.pc && !r.link.mic
      && r.saved == p.saved && r.fault == Thrown(message)
  {
  }

  /** A missing secure context or microphone API fails before the lock is read. */
  lemma StartWithoutMicrophone(p: Page, today: int, secure: bool, hasMic: bool)
    requires Idle?(p.link) && p.link.step == NoStep
    requires !secure || !hasMic
    ensures var r := Step(p, Start(today, secure, hasMic));
      && Idle?(r.link) && r.link.status == Idle && r.link.step == NoStep && !r.link.mic
      && r.fault == (if !secure then InsecureContext else NoMicrophone)
      && r.saved == p.saved
  {
  }

  /** Granting the microphone hands out the next lesson: the topic line, the
      `SYSTEM:` line, and the cursor written back as the lesson's number. */
  lemma MicHandsOutLesson(p: Page)
    requires p.link.step == AwaitMic
    ensures var r := Step(p, MicGranted);
      var lesson := CourseTopic(p.saved.lessonDay);
      && r.lesson == Some(lesson) && r.link.mic && r.link.step == AwaitToken
      && ReadInt(r.saved.lessonDay) == lesson.number
      && r.transcript == Transcript.Append(p.transcript, SystemLine(p.student, LevelRules(p.link.sessionLevel), lesson))
  {
    MicStepIsOnMic(p);
    CourseTopicSpec(p.saved.lessonDay);
  }

  lemma MicStepIsOnMic(p: Page)
    requires p.link.step == AwaitMic
    ensures Step(p, MicGranted) == OnMic(p)
  {
  }

  /** After a reset the next lesson handed out is lesson 1. */
  lemma ResetRestartsCourse(p: Page)
    ensures CourseTopic(Step(p, ResetProgress).saved.lessonDay).number == 1
    ensures Step(p, ResetProgress).topic == ""
  {
    ResetStep(p);
    ResetStartsCourse();
  }

  lemma ResetStep(p: Page)
    ensures Step(p, ResetProgress).saved.lessonDay == ResetCursor
    ensures Step(p, ResetProgress).topic == ""
  {
  }

  /** The level chosen is the level loaded next time; it cannot change during
      a session. */
  lemma LevelChoiceIsSaved(p: Page, l: Level)
    ensures Idle?(p.link) ==>
      Step(p, ChangeLevel(l)).level == l && ParseLevel(Step(p, ChangeLevel(l)).saved.level) == l
    ensures !Idle?(p.link) ==> Step(p, ChangeLevel(l)) == p
  {
    LevelStep(p, l);
    ParseLevelRoundTrip(l);
  }

  lemma LevelStep(p: Page, l: Level)
    ensures Idle?(p.link) ==> Step(p, ChangeLevel(l)).level == l
    ensures Idle?(p.link) ==> Step(p, ChangeLevel(l)).saved.level == Some(LevelName(l))
    ensures !Idle?(p.link) ==> Step(p, ChangeLevel(l)) == p
  {
  }

  /** Opening the control channel starts the 600 second session, writes
      today's lock and sends the session setup followed by the first
      response request. */
  lemma OpenStartsSession(p: Page, now: int, today: int)
    requires p.link.dc == Created && p.link.step == NoStep
    ensures var r := Step(p, ChannelOpen(now, today));
      && r.link.connected && !r.link.connecting && r.link.status == Connected
      && r.timer == Timer(true, Some(now), Some(SessionSeconds))
      && r.saved.lockDay == Some(today)
      && |r.sent| == |p.sent| + 2 && r.sent[..|p.sent|] == p.sent
      && r.sent[|p.sent|].SessionUpdate? && r.sent[|p.sent| + 1] == ResponseCreate
  {
  }

  /** Before the deadline a tick only shows the seconds left. */
  lemma TickCountsDown(p: Page, now: int)
    requires p.timer.ticking && p.timer.startedAt.Some?
    requires Remaining(p.timer.startedAt.value, now) > 0
    ensures Step(p, Tick(now)) == p.(timer := p.timer.(timeLeft := Some(Remaining(p.timer.startedAt.value, now))))
  {
  }

  /** Appending the limit line adds exactly that line. */
  lemma LimitLineAppends(t: string, line: string)
    requires line == LimitLine
    ensures Transcript.Append(t, line) == t + line + "\n"
  {
    assert line[0] == 'S' && line[|line| - 1] == '.';
    TrimmedIsFixed(line);
  }

  /** At the deadline the session ends: one limit line, the timer stopped and
      cleared, not connected; any later tick changes nothing. */
  lemma DeadlineEndsSessionOnce(p: Page, now: int, later: int)
    requires p.timer.ticking && p.timer.startedAt.Some?
    requires Remaining(p.timer.startedAt.value, now) <= 0
    ensures var r := Step(p, Tick(now));
      && r.transcript == p.transcript + LimitLine + "\n"
      && r.timer == Stopped && Idle?(r.link) && r.link.status == Idle && r.link.dc == NoChannel
      && Step(r, Tick(later)) == r
  {
    LimitLineAppends(p.transcript, LimitLine);
  }

  /** Stop ends the session and leaves storage and transcript as they are. */
  lemma StopEndsSession(p: Page)
    requires p.link.connected
    ensures var r := Step(p, Stop);
      && Idle?(r.link) && r.timer == Stopped && r.link.status == Idle
      && r.link.dc == NoChannel && !r.link.mic && !r.link.pc
      && r.saved == p.saved && r.transcript == p.transcript
  {
  }

  /** A close of the channel shows "Disconnected" and stops the timer, but
      keeps the connection and the microphone. */
  lemma CloseKeepsMicrophone(p: Page)
    requires p.link.dc == Created || p.link.dc == Open
    ensures var r := Step(p, ChannelClosed(true));
      && Idle?(r.link) && r.link.status == Disconnected && !r.timer.ticking && r.timer.timeLeft.None?
      && r.link.dc == Closed && r.link.mic == p.link.mic && r.link.pc == p.link.pc
  {
  }

  // ---------------------------------------------------------------- resources no ref reaches

  /** No event brings back a stream or a connection that no ref reaches:
      nothing stops or closes them. */
  lemma LostStayLost(p: Page, e: Event)
    ensures Step(p, e).link.lostStreams >= p.link.lostStreams
    ensures Step(p, e).link.lostPeers >= p.link.lostPeers
  {
    if StartEvent(e) {
      StartLostStayLost(p, e);
    } else {
      SessionLosesNothing(p, e);
    }
  }

  lemma StartLostStayLost(p: Page, e: Event)
    requires StartEvent(e)
    ensures Step(p, e).link.lostStreams >= p.link.lostStreams
    ensures Step(p, e).link.lostPeers >= p.link.lostPeers
  {
    if e.Start? || e.Unlocked? || e.MicGranted? || e.TokenArrived? {
      EarlyLostStayLost(p, e);
    }
  }

  lemma EarlyLostStayLost(p: Page, e: Event)
    requires e.Start? || e.Unlocked? || e.MicGranted? || e.TokenArrived?
    ensures Step(p, e).link.lostStreams >= p.link.lostStreams
    ensures Step(p, e).link.lostPeers >= p.link.lostPeers
  {
  }

  lemma {:induction false} RunLostStayLost(p: Page, es: seq<Event>)
    ensures Run(p, es).link.lostStreams >= p.link.lostStreams
    ensures Run(p, es).link.lostPeers >= p.link.lostPeers
    decreases |es|
  {
    if es != [] {
      LostStayLost(p, es[0]);
      RunLostStayLost(Step(p, es[0]), es[1..]);
    }
  }

  /** As written: after a remote close the refs still hold the stream and the
      connection; a Start on a later day overwrites both refs, so the old
      stream and connection can no longer be stopped or closed. */
  lemma {:induction false} RestartLosesMicrophone(p: Page, today: int, tok: Response)
    requires Idle?(p.link) && p.link.step == NoStep && p.link.mic && p.link.pc
    requires p.saved.lockDay != Some(today) && TokenAccepted(tok)
    ensures var r := Run(p, [Start(today, true, true), Unlocked, MicGranted, TokenArrived(tok)]);
      && r.link.lostStreams == p.link.lostStreams + 1
      && r.link.lostPeers == p.link.lostPeers + 1
  {
    StartBegins(p, today);
    var p1 := Step(p, Start(today, true, true));
    UnlockStep(p1);
    var p2 := Step(p1, Unlocked);
    MicStep(p2);
    var p3 := Step(p2, MicGranted);
    TokenStep(p3, tok);
    RunCons(p3, TokenArrived(tok), []);
    RunCons(p2, MicGranted, [TokenArrived(tok)]);
    RunCons(p1, Unlocked, [MicGranted, TokenArrived(tok)]);
    RunCons(p, Start(today, true, true), [Unlocked, MicGranted, TokenArrived(tok)]);
  }

  /** Corrected: `startTalking` runs `cleanup` before it begins, so what the
      refs still hold is released before they are overwritten. */
  function StepReleasing(p: Page, e: Event): Page {
    if e.Start? && Idle?(p.link) && p.link.step == NoStep then
      StartTalking(p.(link := Cleanup(p.link)), e.today, e.secure, e.hasMic)
    else Step(p, e)
  }

  function RunReleasing(p: Page, es: seq<Event>): Page
    decreases |es|
  {
    if es == [] then p else RunReleasing(StepReleasing(p, es[0]), es[1..])
  }

  /** Before the microphone is granted neither ref holds anything, and before
      the token arrives `pcRef` holds nothing. */
  predicate RefsFree(l: Link) {
    && (l.step == Unlocking || l.step == AwaitMic ==> !l.mic && !l.pc)
    && (l.step == AwaitToken ==> !l.pc)
  }

  /** With the corrected start no event loses a stream or a connection. */
  lemma ReleasingLosesNothing(p: Page, e: Event)
    requires RefsFree(p.link)
    ensures var r := StepReleasing(p, e);
      && RefsFree(r.link)
      && r.link.lostStreams == p.link.lostStreams && r.link.lostPeers == p.link.lostPeers
  {
    if StartEvent(e) {
      StartReleasingLosesNothing(p, e);
    } else {
      SessionLosesNothing(p, e);
    }
  }

  lemma StartReleasingLosesNothing(p: Page, e: Event)
    requires RefsFree(p.link) && StartEvent(e)
    ensures var r := StepReleasing(p, e);
      && RefsFree(r.link)
      && r.link.lostStreams == p.link.lostStreams && r.link.lostPeers == p.link.lostPeers
  {
    if e.Start? || e.Unlocked? || e.MicGranted? || e.TokenArrived? {
      EarlyReleasingLosesNothing(p, e);
    }
  }

  lemma EarlyReleasingLosesNothing(p: Page, e: Event)
    requires RefsFree(p.link)
    requires e.Start? || e.Unlocked? || e.MicGranted? || e.TokenArrived?
    ensures var r := StepReleasing(p, e);
      && RefsFree(r.link)
      && r.link.lostStreams == p.link.lostStreams && r.link.lostPeers == p.link.lostPeers
  {
  }

  /** The events of a running session leave the start sequence where it is,
      take nothing into a ref, and lose nothing. */
  lemma SessionLosesNothing(p: Page, e: Event)
    requires !StartEvent(e)
    ensures var r := Step(p, e);
      && r.link.step == p.link.step && (r.link.mic ==> p.link.mic) && (r.link.pc ==> p.link.pc)
      && r.link.lostStreams == p.link.lostStreams && r.link.lostPeers == p.link.lostPeers
  {
  }

  /** From the page on mount, no sequence of events under the corrected start
      ever leaves a stream or a connection that nothing can release. */
  lemma {:induction false} RunReleasingLosesNothing(p: Page, es: seq<Event>)
    requires RefsFree(p.link)
    ensures RunReleasing(p, es).link.lostStreams == p.link.lostStreams
    ensures RunReleasing(p, es).link.lostPeers == p.link.lostPeers
    decreases |es|
  {
    if es != [] {
      ReleasingLosesNothing(p, es[0]);
      RunReleasingLosesNothing(StepReleasing(p, es[0]), es[1..]);
    }
  }

  lemma MountLosesNothing(student: string, saved: Saved, es: seq<Event>)
    ensures RunReleasing(Initial(student, saved), es).link.lostStreams == 0
    ensures RunReleasing(Initial(student, saved), es).link.lostPeers == 0
  {
    RunReleasingLosesNothing(Initial(student, saved), es);
  }

  // ---------------------------------------------------------------- the score request

  /** The JSON body the page posts to the score route. */
  function ScoreBody(student: string, c: ScoreCall): Json {
    JObj(map["studentName" := JStr(student), "lesson" := JStr(c.topic),
             "level" := JStr(LevelName(c.level)), "transcript" := JStr(c.transcript)])
  }

  /** A transcript shorter than 20 characters after trimming sends nothing. */
  lemma ShortTranscriptSendsNothing(p: Page)
    requires p.score.call.None? && |Trim(p.transcript)| < MinTranscript
    ensures var r := Step(p, RequestScore);
      r.score.call.None? && r.fault == TranscriptTooShort && r.saved == p.saved
  {
    RequestStep(p);
  }

  /** Otherwise the page sends the trimmed transcript with its level and
      topic, and is scoring until the reply. */
  lemma LongTranscriptIsSent(p: Page)
    requires p.score.call.None? && |Trim(p.transcript)| >= MinTranscript
    ensures var r := Step(p, RequestScore);
      && r.score.call == Some(ScoreCall(p.level, p.topic, Trim(p.transcript)))
      && r.score.status == Scoring && r.fault == NoFault
  {
    RequestStep(p);
  }

  lemma RequestStep(p: Page)
    ensures Step(p, RequestScore) == ScoreButton(p)
  {
  }

  /** What the page sends, the route accepts: with the server key set, the
      body of a request the page makes passes the route's checks, and the
      route scores the same transcript. */
  lemma ScoreRequestPassesRoute(student: string, level: Level, topic: string, transcript: string,
                                apiKey: Option<string>, errorText: string)
    requires ScoreRoute.HasKey(apiKey) && |Trim(transcript)| >= MinTranscript
    ensures var body := ScoreBody(student, ScoreCall(level, topic, Trim(transcript)));
      var d := ScoreRoute.Validate(apiKey, Some(body), errorText);
      d.Ask? && d.request.transcript == Trim(transcript)
  {
    TrimIdempotent(transcript);
    ScoreBodyTranscript(student, ScoreCall(level, topic, Trim(transcript)));
  }

  lemma ScoreBodyTranscript(student: string, c: ScoreCall)
    ensures Get(Some(ScoreBody(student, c)), "transcript") == Some(JStr(c.transcript))
  {
  }

  // ---------------------------------------------------------------- the realtime route

  /** The page accepts the route's token reply exactly when the route
      answered 200. */
  lemma TokenAcceptedIff(apiKey: Option<string>, up: RealtimeRoute.Upstream, errorText: string)
    ensures var reply := RealtimeRoute.Post(apiKey, up, errorText);
      TokenAccepted(FromRoute(reply.status, reply.body)) <==> reply.status == 200
  {
  }

  /** With the route as shipped, the answer to the page's SDP offer is a 405:
      the start sequence fails there and the channel never opens. */
  lemma ShippedRouteRefusesAnswer(p: Page, apiKey: Option<string>, up: RealtimeRoute.Upstream, errorText: string)
    requires p.link.step == AwaitAnswer
    ensures var reply := RealtimeRoute.Dispatch(RealtimeRoute.PUT, apiKey, up, errorText);
      var r := Step(p, AnswerArrived(Response(reply.status, None)));
      && r.fault == AnswerRejected(405) && r.link.step == NoStep && r.link.dc == NoChannel
      && Idle?(r.link) && r.link.status == Idle
      && Step(r, ChannelOpen(0, 0)) == r
  {
  }

  /** The page accepts the answer of a route that relays the offer exactly
      when that route answers ok. */
  lemma AnswerAcceptedIff(apiKey: Option<string>, up: RealtimeRoute.SdpUpstream, errorText: string)
    ensures var reply := RealtimeRoute.Answer(apiKey, up, errorText);
      AnswerAccepted(FromRoute(reply.status, reply.body)) <==> RealtimeRoute.IsOk(reply.status)
  {
  }

  // The start sequence one event at a time; each step keeps the lock.

  lemma UnlockStep(p: Page)
    requires p.link.step == Unlocking
    ensures var r := Step(p, Unlocked);
      && r.link.step == AwaitMic && r.saved == p.saved && r.link.dc == p.link.dc
      && r.link.mic == p.link.mic && r.link.pc == p.link.pc
      && r.link.lostStreams == p.link.lostStreams && r.link.lostPeers == p.link.lostPeers
  {
  }

  lemma MicStep(p: Page)
    requires p.link.step == AwaitMic
    ensures var r := Step(p, MicGranted);
      && r.link.step == AwaitToken && r.saved.lockDay == p.saved.lockDay && r.link.dc == p.link.dc
      && r.link.mic && r.link.lostStreams == p.link.lostStreams + (if p.link.mic then 1 else 0)
      && r.link.pc == p.link.pc && r.link.lostPeers == p.link.lostPeers
  {
  }

  lemma TokenStep(p: Page, tok: Response)
    requires p.link.step == AwaitToken && TokenAccepted(tok)
    ensures var r := Step(p, TokenArrived(tok));
      && r.link.step == AwaitOffer && r.link.dc == Created && r.saved == p.saved
      && r.link.pc && r.link.lostPeers == p.link.lostPeers + (if p.link.pc then 1 else 0)
      && r.link.mic == p.link.mic && r.link.lostStreams == p.link.lostStreams
  {
  }

  lemma OfferStep(p: Page)
    requires p.link.step == AwaitOffer
    ensures var r := Step(p, OfferSet);
      r.link.step == AwaitAnswer && r.link.dc == p.link.dc && r.saved == p.saved
  {
  }

  lemma AnswerStep(p: Page, ans: Response)
    requires p.link.step == AwaitAnswer && AnswerAccepted(ans)
    ensures var r := Step(p, AnswerArrived(ans));
      r.link.step == AwaitRemote && r.link.dc == p.link.dc && r.saved == p.saved
  {
  }

  lemma RemoteStep(p: Page)
    requires p.link.step == AwaitRemote
    ensures var r := Step(p, RemoteSet);
      r.link.step == NoStep && r.link.dc == p.link.dc && r.saved == p.saved
  {
  }

  /** Running events one after another. */
  lemma RunCons(p: Page, e: Event, es: seq<Event>)
    ensures Run(p, [e] + es) == Run(Step(p, e), es)
  {
    assert ([e] + es)[1..] == es;
  }

  /** With replies the page accepts, a first session of the day goes
      through: the lesson is handed out, the channel opens, the countdown
      starts at 600 seconds and the lock is today's. */
  lemma {:induction false} SessionGoesLive(student: string, saved: Saved, today: int, now: int,
                                           tok: Response, ans: Response)
    requires saved.lockDay != Some(today)
    requires TokenAccepted(tok) && AnswerAccepted(ans)
    ensures var r := Run(Initial(student, saved),
        [Start(today, true, true), Unlocked, MicGranted, TokenArrived(tok),
         OfferSet, AnswerArrived(ans), RemoteSet, ChannelOpen(now, today)]);
      && r.link.connected && r.link.status == Connected && r.saved.lockDay == Some(today)
      && r.timer.timeLeft == Some(SessionSeconds)
  {
    var p0 := Initial(student, saved);
    StartBegins(p0, today);
    var p1 := Step(p0, Start(today, true, true));
    UnlockStep(p1);
    var p2 := Step(p1, Unlocked);
    MicStep(p2);
    var p3 := Step(p2, MicGranted);
    TokenStep(p3, tok);
    var p4 := Step(p3, TokenArrived(tok));
    OfferStep(p4);
    var p5 := Step(p4, OfferSet);
    AnswerStep(p5, ans);
    var p6 := Step(p5, AnswerArrived(ans));
    RemoteStep(p6);
    var p7 := Step(p6, RemoteSet);
    OpenStartsSession(p7, now, today);
    var p8 := Step(p7, ChannelOpen(now, today));
    RunCons(p7, ChannelOpen(now, today), []);
    RunCons(p6, RemoteSet, [ChannelOpen(now, today)]);
    RunCons(p5, AnswerArrived(ans), [RemoteSet, ChannelOpen(now, today)]);
    RunCons(p4, OfferSet, [AnswerArrived(ans), RemoteSet, ChannelOpen(now, today)]);
    RunCons(p3, TokenArrived(tok), [OfferSet, AnswerArrived(ans), RemoteSet, ChannelOpen(now, today)]);
    RunCons(p2, MicGranted, [TokenArrived(tok), OfferSet, AnswerArrived(ans), RemoteSet, ChannelOpen(now, today)]);
    RunCons(p1, Unlocked, [MicGranted, TokenArrived(tok), OfferSet, AnswerArrived(ans), RemoteSet, ChannelOpen(now, today)]);
    RunCons(p0, Start(today, true, true), [Unlocked, MicGranted, TokenArrived(tok), OfferSet, AnswerArrived(ans), RemoteSet, ChannelOpen(now, today)]);
  }
}
