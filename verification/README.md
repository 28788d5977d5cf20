# Amin Sir AI Tutor — a Dafny model of the practice page, the login and the two routes

Amin Sir AI Tutor is a small Next.js application. A student signs in with a
name and a four-digit PIN, then holds a ten-minute voice lesson with a
realtime voice model. The lesson topic comes from a fixed 20-lesson course.
After the lesson, the student may ask a scoring route to grade the transcript.
The page keeps, per student and in browser storage:

- the course cursor and the chosen level;
- the last ten score reports;
- a daily streak and the best average score;
- a once-per-day session lock.

This project models that logic as pure Dafny functions over immutable
records, and proves what the code promises about it.

| file | module | what it models |
|---|---|---|
| common.dfy | `Common` | `Option`, `Result`, `Min`/`Max` |
| text.dfy | `Text` | `trim`, `toLowerCase`, `String(n)` and `parseInt(s, 10)` on ASCII text |
| json.dfy | `Json` | parsed JSON values and the operators the code uses on them: truthiness, `\|\|`, `??`, `?.` |
| student_key.dfy | `StudentKey` | the student name, `safeStudentKey` and the per-student storage keys |
| progress.dfy | `Progress` | the level, the course cursor, reports, the history, the streak, averages and the best average |
| transcript.dfy | `Transcript` | `appendTranscript` and how `dc.onmessage` picks text out of a frame |
| schema.dfy | `ReportSchema` | the JSON schema the scoring route asks the model to follow |
| chat_page.dfy | `ChatPage` | the page as one record driven by events: the voice-session state machine, the timer, the score request |
| login.dfy | `Login` | `normalizeName`, the login check chain and the PIN field filter |
| score_route.dfy | `ScoreRoute` | `POST /api/score`: request checks, upstream mapping, default filling |
| realtime_route.dfy | `RealtimeRoute` | `GET` and `POST /api/realtime`, and the methods the route does not export |

How the model works:

- Browser storage is the `Saved` record for the page and a `Store` map for the login.
- Time is an integer input: days are day numbers, and the clock is in milliseconds.
- Each asynchronous step of `startTalking` is an event:
  - the microphone being granted;
  - the token reply;
  - the offer being set;
  - the SDP reply;
  - the remote description being set;
  - a thrown error.
- `localStreamRef` and `pcRef` are flags saying whether they hold a live stream or an open connection. A stream or connection that no ref reaches any more is counted, because nothing can release it.
- The page's state between two events is the `Page` record. `ChatPage.Step` is what one event does to it.
- React state updates inside one handler are applied in order, and the last `setStatus` wins. For example, a failure ends in "Idle", because `cleanup` runs after `setStatus("Error")`.

## Model

| member | source | states |
|---|---|---|
| StudentKey.StudentName | app/chat/page.js:52-62 | the greeted name is never empty and is trimmed; it is the trimmed URL name, else the trimmed stored name, else "Student" |
| StudentKey.CollapseFrom | app/chat/page.js:69 | replacing white-space runs with `_` leaves no white space, and changes nothing in a text without any; what each run becomes is stated by the two lemmas below |
| StudentKey.CollapseSpaceRun | app/chat/page.js:69 | a maximal run of white space becomes exactly one `_` (none when it continues a run already replaced), and what follows is read as inside that run |
| StudentKey.CollapseWordRun | app/chat/page.js:69 | a run of other characters is kept as it is, in order, and ends any white-space run |
| StudentKey.KeepKeyChars | app/chat/page.js:70 | dropping the characters outside `[a-z0-9_]` keeps only key characters, never lengthens, and keeps a text of key characters unchanged |
| StudentKey.KeepKeyCharsConcat | app/chat/page.js:70 | the filter works piece by piece: the kept characters of `a + b` are those of `a` followed by those of `b` |
| StudentKey.KeepKeyCharsOne | app/chat/page.js:70 | a single character is kept exactly when it is in `[a-z0-9_]`; with the lemma above, every key character of the input is kept, in order, and nothing else |
| StudentKey.SafeStudentKey | app/chat/page.js:65-72 | the student key is never empty and holds only `[a-z0-9_]` |
| StudentKey.SafeKeyIsFixed | app/chat/page.js:65-72 | a key that is already safe is its own key |
| StudentKey.SafeStudentKeyIdempotent | app/chat/page.js:65-72 | normalising a key again returns it unchanged |
| StudentKey.Prefix | app/chat/page.js:74-87 | every storage prefix is at least six characters long |
| StudentKey.StorageKey | app/chat/page.js:74-87 | each per-student storage key is its field's fixed prefix followed by the student key |
| StudentKey.PrefixesDiverge | app/chat/page.js:74-87 | two different fields' prefixes differ at a position inside both of them |
| StudentKey.StorageKeysDistinct | app/chat/page.js:74-87 | two storage keys are equal exactly when they are for the same field and the same student key, so no two students or fields share a slot |
| Text.TrimStart | app/chat/page.js:53 | the result is a suffix of the input, starts with a non-space, and everything dropped is white space |
| Text.TrimEnd | app/chat/page.js:595 | the result is a prefix of the input, ends with a non-space, and everything dropped is white space |
| Text.Trim | app/chat/page.js:364 | a trimmed text has no white space at either end and is no longer than the input; that it is the input minus its white-space ends is Text.TrimIsSlice |
| Text.TrimIsSlice | app/chat/page.js:364 | `s.trim()` is `s` from some position `i` on, with only white space before `i` and after its end: the two white-space ends are cut off and nothing else changes |
| Text.TrimStartKeeps | app/chat/page.js:53 | proof helper: the characters `trimStart` keeps are the last ones of the input, in place |
| Text.TrimEndKeeps | app/chat/page.js:595 | proof helper: the characters `trimEnd` keeps are the first ones of the input, in place |
| Text.DropBothEnds | app/chat/page.js:364 | proof helper: cutting white space off the front and then off the back of the rest leaves a slice of the input with white space on both sides |
| Text.TrimmedIsFixed | app/chat/page.js:206 | trimming a text with no white space at its ends changes nothing |
| Text.TrimIdempotent | app/chat/page.js:364 | trimming twice is trimming once |
| Text.TrimEmptyIff | app/chat/page.js:595 | `s.trim()` is empty exactly when `s` is all white space |
| Text.TrimTagged | app/chat/page.js:595 | trimming a tag that starts with a non-space, followed by a text that is not blank, trims only the end of the text |
| Text.TrimEndOfConcat | app/chat/page.js:595 | trimming the end of `a + b`, where `b` is not blank, trims only the end of `b` |
| Text.LowerChar | app/chat/page.js:68 | an upper-case letter becomes the letter 32 code points later, its lower-case partner; any other character is unchanged; so the result is never upper case, and white space and digits stay what they were |
| Text.Lower | app/chat/page.js:68 | `toLowerCase` maps each character on its own and keeps the length |
| Text.LowerKeepsTrimmed | app/login/page.js:17 | lower-casing a trimmed text keeps it trimmed |
| Text.LowerOfLower | app/chat/page.js:94 | a text with no upper-case letter is its own lower-case form |
| Text.Utf16Length | app/api/score/route.js:19 | JavaScript's `.length` counts each character once, or twice above U+FFFF, so it lies between the character count and twice that |
| Text.Utf16LengthOfBmp | app/api/score/route.js:19 | on text inside the Basic Multilingual Plane `.length` is the character count |
| Text.NatToString | app/chat/page.js:302 | `String(n)` of a natural number, for the model's unbounded integers, is a non-empty run of digits, with a leading zero only for 0 |
| Text.NatToStringValue | app/chat/page.js:302 | the digits written for `n` denote `n`, for every natural number of the model (JavaScript agrees below `1e21`) |
| Text.IntToString | app/chat/page.js:343 | `String(n)` starts with a minus sign or a digit |
| Text.ParseInt | app/chat/page.js:292 | no contract of its own: `parseInt(s, 10)` skips leading white space, takes an optional sign and the longest run of digits, and is `NaN` without digits; characterised by Text.ParseIntOfIntToString and Text.DigitPrefix |
| Text.DigitPrefix | app/chat/page.js:292 | the digits `parseInt` reads are the longest prefix of digits |
| Text.DigitPrefixOfDigits | app/chat/page.js:292 | `parseInt` stops reading digits at the first character that is not a digit |
| Text.ParseIntOfIntToString | app/chat/page.js:292 | `parseInt` reads back what `String(n)` wrote, for the model's unbounded integers, whatever non-digit text follows |
| Text.ParseIntNonNegative | app/chat/page.js:292 | the same, for a number that is not negative |
| Text.ParseIntNegative | app/chat/page.js:292 | the same, for a negative number |
| Text.ParseIntRoundTrip | app/chat/page.js:292 | `parseInt(String(n), 10) == n` for every integer `n` of the model (JavaScript agrees for safe integers) |
| Progress.ReadInt | app/chat/page.js:121 | no contract of its own: `parseInt(stored \|\| "0", 10)` with `NaN` read as 0; characterised by Progress.ReadIntRoundTrip |
| Progress.ReadIntRoundTrip | app/chat/page.js:121 | a count stored with `String(n)` is read back as `n`, for the model's unbounded integers |
| Progress.ParseLevel | app/chat/page.js:92-100 | the loaded level is advanced or medium exactly when the lower-cased stored value names it, and beginner otherwise, including when nothing is stored |
| Progress.ParseLevelRoundTrip | app/chat/page.js:102-107 | the level `onChangeLevel` stores is the level loaded next time |
| Progress.LevelRulesDistinct | app/chat/page.js:309-313 | each level has its own label and its own speed |
| Progress.LevelRules | app/chat/page.js:309-313 | no contract of its own: the label and speech speed of each level; characterised by Progress.LevelRulesDistinct |
| Progress.Wrap | app/chat/page.js:296 | the guarded cursor is below 20, and stays non-negative when the stored one was |
| Progress.EffectiveCursor | app/chat/page.js:290-296 | the cursor in use is below 20 |
| Progress.LessonAt | app/chat/page.js:298-306 | the lesson at cursor `d` is number `d + 1`, titled `course[d]`, or untitled for a negative cursor |
| Progress.CourseTopic | app/chat/page.js:266-307 | no contract of its own: `getCourseTopic` reads the stored cursor, guards it, hands out that lesson and writes back the next cursor; characterised by Progress.CourseTopicSpec and Progress.NextCallReadsBack |
| Progress.CourseTopicSpec | app/chat/page.js:259-307 | for a stored cursor `d >= 0`, the lesson handed out is `course[d']` with `d'` the guarded cursor; its number `d' + 1` is in 1..20; and the cursor written back reads as `d' + 1` |
| Progress.NextCallReadsBack | app/chat/page.js:290-303 | the next call reads the cursor this call wrote back, and hands out the next lesson, starting over after the last |
| Progress.ResetStartsCourse | app/chat/page.js:259-264 | after `resetProgress` the next lesson handed out is lesson 1, "Introducing myself" |
| Progress.HandOutLessons | app/chat/page.js:290-306 | handing out `n` lessons in a row from cursor `e` gives lessons `(e + i) % 20 + 1` in order, and leaves the cursor at `(e + n) % 20` |
| Progress.WrapIsNextModulo | app/chat/page.js:296-302 | advancing and guarding the cursor counts modulo 20 |
| Progress.BuildReportKeepsWellFormed | app/chat/page.js:391-402 | a well-formed reply with non-empty texts is recorded field for field, and its average lies between 1 and 5 |
| Progress.BuildReport | app/chat/page.js:391-402 | no contract of its own: the report built from the reply with the page's fallbacks; characterised by Progress.BuildReportKeepsWellFormed and ChatPage.ScoreRecordsReport |
| Progress.AddToHistory | app/chat/page.js:156-160 | the new report comes first, the length is capped at 10, and the rest is a prefix of the old history |
| Progress.Reverse | app/chat/page.js:156-160 | the reference order of HistoryKeepsMostRecent: the reports recorded so far listed newest first, as many as were recorded |
| Progress.HistoryKeepsMostRecent | app/chat/page.js:156-160 | after any number of reports, the history is the ten most recent, newest first |
| Progress.UpdateStreak | app/chat/page.js:322-346 | the last day becomes today; the same day changes nothing; no last day gives 1; yesterday gives `max(1, count + 1)`; any other day gives 1 |
| Progress.UpdateStreakSameDay | app/chat/page.js:335 | a second success on the same day changes nothing |
| Progress.ConsecutiveDaysStreak | app/chat/page.js:337-338 | successes on `n` consecutive days, starting from no streak, give a streak of `n` ending today |
| Progress.GapResetsStreak | app/chat/page.js:338 | missing a day starts the count over at 1 |
| Progress.SeqMinMaxBound | app/chat/page.js:317 | every present score lies between the least and the greatest |
| Progress.SumWithin | app/chat/page.js:319 | a sum of values from `lo` to `hi` lies between `n * lo` and `n * hi` |
| Progress.SumBounds | app/chat/page.js:319 | the sum of the scores lies between `n` times the least and `n` times the greatest |
| Progress.DivBounds | app/chat/page.js:319 | dividing such a sum by `n` lands between the least and the greatest |
| Progress.Avg | app/chat/page.js:315-320 | `getAvg` is null exactly when no score is a number; otherwise it lies between the least and the greatest numeric score |
| Progress.SeqMinMaxWithin | app/chat/page.js:315-320 | values within `lo..hi` have their least and greatest within `lo..hi` |
| Progress.WellFormedScoresAverage | app/chat/page.js:315-320 | the four scores of a well-formed report are all counted, and they average between 1 and 5 |
| Progress.UpdateBest | app/chat/page.js:348-358 | the best changes only to a non-null average that is strictly greater, or when there was none; it never decreases; and afterwards it is at least the new average |
| Progress.BestIsHighWaterMark | app/chat/page.js:348-358 | over any run of reports, the best is at least the starting best and at least every report's average |
| Progress.RecordReport | app/chat/page.js:404-406 | a successful score updates the history with the report, the streak for today and the best with the report's scores, in that order, and nothing else in the standing |
| Transcript.Append | app/chat/page.js:204-209 | an empty line leaves the transcript as it is; any other line appends exactly its trimmed form and a newline, so the old transcript is a prefix of the new one |
| Transcript.AppendRecordsLine | app/chat/page.js:204-209 | the transcript is the joined list of lines recorded so far, and appending records one more line |
| Transcript.AppendTagged | app/chat/page.js:595 | appending `AI: text` or `STUDENT: text` adds the tag, the text with its trailing white space dropped, and a newline |
| Transcript.AppendPickedAdds | app/chat/page.js:595-601 | a picked value adds its tagged line only when it is a string that is not blank, and otherwise adds nothing |
| Transcript.OnMessage | app/chat/page.js:589-603 | no contract of its own: `dc.onmessage` parses the frame and appends the assistant line, then the student line; characterised by Transcript.OnMessageAppends |
| Transcript.OnMessageAppends | app/chat/page.js:589-603 | a frame that does not parse leaves the transcript unchanged; a parsed frame adds at most one `AI:` line and then at most one `STUDENT:` line, each picked by its fallback chain |
| ChatPage.Initial | app/chat/page.js:18-100 | on mount the level is the saved one, there is no session, the status is "Idle" and the transcript is empty |
| ChatPage.InitialInv | app/chat/page.js:18-100 | the page starts in a state that satisfies the controller's invariant |
| ChatPage.Cleanup | app/chat/page.js:211-234 | `cleanup` clears both flags, shows "Idle", and drops the channel, the connection and the microphone the refs hold; streams and connections no ref reaches stay unreleased |
| ChatPage.CleanupIdempotent | app/chat/page.js:211-234 | cleaning up twice is cleaning up once |
| ChatPage.Fail | app/chat/page.js:643-649 | the `catch` shows the error, ends in "Idle" with the refs released, abandons the start sequence, and leaves storage, transcript and timer as they were |
| ChatPage.StopTalking | app/chat/page.js:236-248 | stop clears the error and the timer, releases what the refs hold, and leaves storage and transcript as they were |
| ChatPage.StartTalking | app/chat/page.js:451-484 | no contract of its own: `startTalking` up to its first `await`; characterised by ChatPage.StartWhileBusy, ChatPage.StartWithoutMicrophone, ChatPage.SameDayLockBlocks and ChatPage.StartBegins |
| ChatPage.OnMic | app/chat/page.js:489-498 | no contract of its own: the microphone grant; characterised by ChatPage.MicHandsOutLesson and ChatPage.MicStep |
| ChatPage.OnToken | app/chat/page.js:500-531 | no contract of its own: the token reply; characterised by ChatPage.TokenStep and ChatPage.TokenAcceptedIff |
| ChatPage.OnAnswer | app/chat/page.js:634-639 | no contract of its own: the SDP reply; characterised by ChatPage.AnswerStep and ChatPage.AnswerAcceptedIff |
| ChatPage.OnOpen | app/chat/page.js:533-587 | no contract of its own: `dc.onopen`; characterised by ChatPage.OpenStartsSession and ChatPage.LockWrittenOnlyOnOpen |
| ChatPage.OnTick | app/chat/page.js:542-551 | no contract of its own: one run of the interval; characterised by ChatPage.TickCountsDown and ChatPage.DeadlineEndsSessionOnce |
| ChatPage.EndForLimit | app/chat/page.js:250-257 | no contract of its own: `endSessionDueToLimit`; characterised by ChatPage.DeadlineEndsSessionOnce |
| ChatPage.OnClose | app/chat/page.js:606-615 | no contract of its own: `dc.onclose`; characterised by ChatPage.CloseKeepsMicrophone |
| ChatPage.RequestSpeakingScore | app/chat/page.js:360-382 | no contract of its own: the score request; characterised by ChatPage.ShortTranscriptSendsNothing and ChatPage.LongTranscriptIsSent |
| ChatPage.OnScore | app/chat/page.js:383-410 | no contract of its own: the score reply; characterised by ChatPage.ScoreRecordsReport and ChatPage.StandingChangesOnlyOnScore |
| ChatPage.Step | app/chat/page.js:451-700 | no contract of its own: what one event does to the page; characterised by ChatPage.StepPreservesInv, ChatPage.TranscriptOnlyGrows and the per-event lemmas below |
| ChatPage.StepPreservesInv | app/chat/page.js:451-615 | every event keeps the invariant: never connecting and connected at once; connected only with an open channel; the timer runs exactly while there is a time left, only while connected, and never below 0 |
| ChatPage.StartPreservesInv | app/chat/page.js:451-649 | the events of the start sequence keep the invariant |
| ChatPage.SessionPreservesInv | app/chat/page.js:533-615 | the events of a running session, the level, the reset and the score keep the invariant |
| ChatPage.RunPreservesInv | app/chat/page.js:451-615 | any sequence of events keeps the invariant |
| ChatPage.TranscriptOnlyGrows | app/chat/page.js:204-209 | no event removes or rewrites what the transcript holds |
| ChatPage.RunTranscriptOnlyGrows | app/chat/page.js:204-209 | the transcript only grows over any sequence of events |
| ChatPage.LockWrittenOnlyOnOpen | app/chat/page.js:553-557 | the daily lock changes only when the control channel opens, and then to today |
| ChatPage.StandingChangesOnlyOnScore | app/chat/page.js:384-407 | history, streak and best change only when an ok reply with a JSON object or array arrives for a pending request |
| ChatPage.ScoreRecordsReport | app/chat/page.js:388-406 | a successful score adds the report built from the reply to the history, updates the streak for today and the best for its scores, and selects it |
| ChatPage.StartWhileBusy | app/chat/page.js:451-456 | Start while connecting or connected only clears the error and the score display |
| ChatPage.SameDayLockBlocks | app/chat/page.js:472-482 | a second session on the same day returns to "Idle" without the microphone, and stores nothing |
| ChatPage.StartBegins | app/chat/page.js:461-484 | on another day, Start shows "Connecting..." and begins the sequence, with storage untouched |
| ChatPage.StepFailedCleansUp | app/chat/page.js:643-649 | an error thrown at any step after the audio unlock ends in `cleanup`: both flags false, the refs released, and the lock unwritten |
| ChatPage.StartWithoutMicrophone | app/chat/page.js:466-470 | with no secure context or no microphone API, Start fails before the lock is read |
| ChatPage.MicHandsOutLesson | app/chat/page.js:486-496 | once the microphone is granted, the next lesson is handed out, noted as the `SYSTEM:` line, and its number written back as the cursor |
| ChatPage.MicStepIsOnMic | app/chat/page.js:489-499 | while waiting for the microphone, the grant runs the lesson hand-out |
| ChatPage.ResetRestartsCourse | app/chat/page.js:259-264 | after a reset, the next lesson handed out is lesson 1 and the topic line is cleared |
| ChatPage.ResetStep | app/chat/page.js:259-264 | a reset stores the cursor "0" and clears the topic line |
| ChatPage.LevelChoiceIsSaved | app/chat/page.js:102-107 | the chosen level is the level loaded next time, and it cannot change during a session |
| ChatPage.LevelStep | app/chat/page.js:697-700 | the level selector works only while neither connecting nor connected, and it stores the level's name |
| ChatPage.OpenStartsSession | app/chat/page.js:533-587 | the channel opening sets connected, starts the countdown at 600, writes today's lock, and sends `session.update` followed by `response.create` |
| ChatPage.TickCountsDown | app/chat/page.js:542-545 | before the deadline a tick only shows `600 - floor(elapsed / 1000)` |
| ChatPage.LimitLineAppends | app/chat/page.js:254 | the limit line is appended exactly as written |
| ChatPage.DeadlineEndsSessionOnce | app/chat/page.js:546-551 | at the deadline, exactly one limit line is appended, the timer is stopped and cleared, the session is no longer connected, and any later tick changes nothing |
| ChatPage.StopEndsSession | app/chat/page.js:236-248 | Stop ends the session, releases what the refs hold, and leaves storage and transcript as they were |
| ChatPage.CloseKeepsMicrophone | app/chat/page.js:606-615 | a channel close shows "Disconnected" and stops the timer, but keeps the connection and the microphone |
| ChatPage.LostStayLost | app/chat/page.js:211-234 | no event releases a stream or a connection that no ref reaches: their counts never go down |
| ChatPage.StartLostStayLost | app/chat/page.js:451-649 | the same, for the events of the start sequence |
| ChatPage.EarlyLostStayLost | app/chat/page.js:451-531 | the same, for Start, the unlock, the microphone and the token |
| ChatPage.RunLostStayLost | app/chat/page.js:211-234 | over any sequence of events, what was lost stays lost |
| ChatPage.RestartLosesMicrophone | app/chat/page.js:491-506 | as written: after a remote close the refs still hold the stream and the connection, and a Start on a later day that reaches the token overwrites both refs, losing one stream and one connection |
| ChatPage.StepReleasing | app/chat/page.js:451-506 | no contract of its own: the corrected start, which runs `cleanup` before it begins; characterised by ChatPage.ReleasingLosesNothing |
| ChatPage.RunReleasing | app/chat/page.js:451-650 | no contract of its own: events run with the corrected start; characterised by ChatPage.RunReleasingLosesNothing |
| ChatPage.ReleasingLosesNothing | app/chat/page.js:451-506 | with the corrected start, no event loses a stream or a connection, and the refs are empty until the step that fills them |
| ChatPage.StartReleasingLosesNothing | app/chat/page.js:451-649 | the same, for the events of the start sequence |
| ChatPage.EarlyReleasingLosesNothing | app/chat/page.js:451-531 | the same, for Start, the unlock, the microphone and the token |
| ChatPage.SessionLosesNothing | app/chat/page.js:533-615 | the events of a running session, the level, the reset and the score leave the start sequence where it is, put nothing new into a ref, and lose nothing |
| ChatPage.RunReleasingLosesNothing | app/chat/page.js:451-650 | with the corrected start, no sequence of events loses a stream or a connection |
| ChatPage.MountLosesNothing | app/chat/page.js:18-650 | from the page on mount, with the corrected start, no stream or connection is ever left that nothing can release |
| ChatPage.ShortTranscriptSendsNothing | app/chat/page.js:364-368 | a transcript shorter than 20 characters after trimming makes no request and shows the error |
| ChatPage.LongTranscriptIsSent | app/chat/page.js:364-379 | otherwise the page sends the trimmed transcript with its level and topic, and is scoring until the reply |
| ChatPage.ScoreRequestPassesRoute | app/chat/page.js:374-382 | with the server key set, the body the page sends passes the scoring route's checks, and the route scores the same transcript |
| ChatPage.ScoreBodyTranscript | app/chat/page.js:379 | the body the page sends carries the transcript under `transcript` |
| ChatPage.TokenAcceptedIff | app/chat/page.js:192-202 | the page accepts the token route's reply exactly when the route answered 200 |
| ChatPage.ShippedRouteRefusesAnswer | app/chat/page.js:624-636 | with the route as shipped, the SDP request is refused with 405, the start sequence fails there, and the channel never opens |
| ChatPage.AnswerAcceptedIff | app/chat/page.js:634-636 | the page accepts the reply of a route that relays the offer exactly when that route answers ok |
| ChatPage.UnlockStep | app/chat/page.js:484-487 | after the audio unlock, the page waits for the microphone |
| ChatPage.MicStep | app/chat/page.js:489-500 | after the microphone, the page waits for the token, and the lock is untouched |
| ChatPage.TokenStep | app/chat/page.js:500-531 | an accepted token creates the connection and the control channel, and the page waits for the offer |
| ChatPage.OfferStep | app/chat/page.js:617-623 | once the offer is set, the page waits for the SDP answer |
| ChatPage.AnswerStep | app/chat/page.js:634-639 | an accepted answer leads to setting the remote description |
| ChatPage.RemoteStep | app/chat/page.js:639-642 | once the remote description is set, the page shows "Live" and the start sequence is over |
| ChatPage.RunCons | app/chat/page.js:451-650 | running events is stepping through them one after another |
| ChatPage.SessionGoesLive | app/chat/page.js:451-587 | with replies the page accepts, a first session of the day goes through: the channel opens, the countdown starts at 600 and the lock is today's |
| Login.NormalizeName | app/login/page.js:16-18 | the normalised name is trimmed, has no upper-case letter, and is no longer than the input; its value is Login.NormalizeNameSpec |
| Login.NormalizeNameSpec | app/login/page.js:16-18 | the normalised name is the input with its white-space ends cut off and every remaining character lower-cased |
| Login.LowerOfSlice | app/login/page.js:16-18 | proof helper: lower-casing a trimmed slice of the input lower-cases each of its characters in place |
| Login.NormalizeNameFixed | app/login/page.js:16-18 | an already normalised name stays as it is |
| Login.AllowedUsersValid | app/login/page.js:9-14 | every allowed user has a non-empty name and a four-digit PIN |
| Login.LoginAsWritten | app/login/page.js:39-58 | the check chain as written never writes storage on failure |
| Login.InheritedNameIsWrongPin | app/login/page.js:48-50 | a name that is no account but names an `Object.prototype` member is told "Wrong PIN" instead of "Username not found" |
| Login.ConstructorIsWrongPin | app/login/page.js:48-50 | the name "constructor" with the PIN "1234" shows that discrepancy |
| Login.Login | app/login/page.js:42-57 | the corrected check chain, with an own-property lookup (the page as written is Login.LoginAsWritten): the first failing check decides the error (empty name, PIN format, unknown name, wrong PIN); a failure never writes storage; a success writes the auth record for the normalised name |
| Login.LoginSucceedsIff | app/login/page.js:42-57 | login succeeds exactly when the normalised name is an account and the trimmed PIN is its PIN, and the signed-in user is the normalised name |
| Login.LoginAgreesAwayFromPrototype | app/login/page.js:48-50 | for every name other than the prototype names, the page's lookup is the own-property one |
| Login.SuccessRedirectsNextTime | app/login/page.js:30-57 | after a successful login, the next visit to the page goes straight to the chat |
| Login.KeepDigits | app/login/page.js:86 | the filter keeps only digits, never lengthens, and keeps a text of digits unchanged |
| Login.KeepDigitsConcat | app/login/page.js:86 | the filter works piece by piece: the digits of `a + b` are those of `a` followed by those of `b` |
| Login.KeepDigitsOne | app/login/page.js:86 | a single character is kept exactly when it is a digit; with the lemma above, every digit typed is kept, in order, and nothing else |
| Login.FilterPin | app/login/page.js:86 | the PIN field holds the first `min(4, d)` of the `d` digits typed, in order, and nothing else |
| Login.FilterPinIdempotent | app/login/page.js:86 | filtering twice is filtering once |
| Login.FilteredPinFormat | app/login/page.js:46 | a filtered PIN of full length passes the format check |
| ScoreRoute.CrashReply | app/api/score/route.js:162-167 | a crash of the route answers 500 |
| ScoreRoute.Validate | app/api/score/route.js:8-27 | a missing key gives 500 before anything else; a `null` body crashes; a transcript that is missing, not a string, or shorter than 20 after trimming gives 400; the model is asked exactly when all checks pass, with the request's fields |
| ScoreRoute.TranscriptOkInBmp | app/api/score/route.js:19 | for a transcript whose trimmed text is inside the Basic Multilingual Plane, the route accepts it exactly when `transcript.trim().length` is at least 20 |
| ScoreRoute.FindOutputText | app/api/score/route.js:140 | `find` returns a part typed `output_text` with no such part before it, or nothing when no part is one |
| ScoreRoute.FindIn | app/api/score/route.js:140 | no contract of its own: `content?.find?.(…)` on an array, an object with or without its own `find`, or anything else; characterised by ScoreRoute.OutputTextOfDocumentedReply |
| ScoreRoute.OutputTextOfDocumentedReply | app/api/score/route.js:139-140 | a reply of the documented shape yields exactly its report text, whatever parts of other types come before it |
| ScoreRoute.FindSkipsBefore | app/api/score/route.js:140 | `find` skips the parts of other types before the first `output_text` |
| ScoreRoute.OutputText | app/api/score/route.js:139-140 | no contract of its own: the optional chain to the text of the first `output_text` part; characterised by ScoreRoute.OutputTextOfDocumentedReply |
| ScoreRoute.DefaultedDistinct | app/api/score/route.js:156-159 | the four filled properties have four different names |
| ScoreRoute.OrAssign | app/api/score/route.js:156-158 | `obj[key] \|\|= v` keeps a truthy property, sets a falsy or missing one to `v`, and changes no other property |
| ScoreRoute.ArrayOrEmpty | app/api/score/route.js:159 | the property becomes `[]` unless it is an array, and no other property changes |
| ScoreRoute.FillUnder | app/api/score/route.js:155-159 | the default filling adds only the filled names, changes no other property, and leaves the corrections an array |
| ScoreRoute.FillDefaults | app/api/score/route.js:155-159 | the same, for the route's four names |
| ScoreRoute.FillUnderFields | app/api/score/route.js:155-159 | each filled property is the model's when truthy (an array, for the corrections), and the fallback otherwise |
| ScoreRoute.FillDefaultsFields | app/api/score/route.js:155-159 | `student`, `level` and `lesson` are the model's when truthy, else the request's value, else "Student" or ""; the corrections are the model's array, else `[]` |
| ScoreRoute.FillUnderIdempotent | app/api/score/route.js:155-159 | filling twice is filling once |
| ScoreRoute.FilledStudentIsTruthy | app/api/score/route.js:156 | after filling, `student` is always truthy |
| ScoreRoute.FillDefaultsIdempotent | app/api/score/route.js:155-159 | filling the route's defaults twice is filling them once |
| ScoreRoute.FillDefaultsKeepsReport | app/api/score/route.js:155-161 | a well-formed report with non-empty names comes back unchanged |
| ScoreRoute.FillDefaultsKeepsWellFormed | app/api/score/route.js:155-161 | a well-formed report stays well formed when the request's names are strings |
| ScoreRoute.Finish | app/api/score/route.js:130-161 | a thrown call crashes; a non-ok reply is passed on with its status and the upstream body as details; status 200 only for an ok reply whose output text is non-empty and parses |
| ScoreRoute.Post | app/api/score/route.js:6-168 | the route answers the checks' reply when a check fails, and otherwise what the model call leads to |
| ScoreRoute.FinishPassesReport | app/api/score/route.js:130-161 | after the checks, a documented reply whose text parses to a well-formed report with non-empty names gives that report with 200 |
| ScoreRoute.PostPassesReport | app/api/score/route.js:6-161 | with the key set and a long enough transcript, such a reply is passed to the caller unchanged with 200 |
| RealtimeRoute.Probe | app/api/realtime/route.js:15-17 | `GET` answers 200 with `ok: true` |
| RealtimeRoute.FailureMessage | app/api/realtime/route.js:46 | the error message is the provider's when truthy, else "Failed to create client secret" |
| RealtimeRoute.Secret | app/api/realtime/route.js:55 | the token is `client_secret.value` when truthy, otherwise `value` |
| RealtimeRoute.CrashReply | app/api/realtime/route.js:59-61 | a crash of the route answers 500 |
| RealtimeRoute.Post | app/api/realtime/route.js:20-62 | a missing key gives 500 before any call; status 200 exactly for an ok reply carrying a truthy secret, and then the body is exactly `{value}`; a non-ok reply keeps its status and reports the message, the status and the raw body; a thrown call gives 500 |
| RealtimeRoute.PostPassesSecret | app/api/realtime/route.js:55-58 | the provider's documented answer hands the nested secret to the page |
| RealtimeRoute.Dispatch | app/api/realtime/route.js:14-20 | the route exports only `GET` and `POST`, so a `PUT` is answered 405 |
| RealtimeRoute.SdpExchangeRefused | app/chat/page.js:624-632 | the page's `PUT /api/realtime` is refused whatever the key and the provider |
| RealtimeRoute.Answer | app/chat/page.js:624-639 | a `PUT` handler that relays the offer answers ok exactly when the key is set and the provider returned a non-empty answer, and then its body is `{sdp}` |
| RealtimeRoute.DispatchWithAnswer | app/chat/page.js:624-639 | the route with that handler behaves as shipped for `GET` and `POST` |

## Left out

- The JSX rendering, the debug log (`logStep`), the transcript preview's 700-character cut, the time display and the best badge are not modelled. They are display only.
- The microphone, the peer connection, the audio unlock, remote audio and the SDP offer itself are not modelled. Each becomes an event that succeeds or throws.
- `fetch`, the request time-outs and `safeJsonAny` are not modelled. A reply is its status and its body parsed as JSON, or `None`.
- The prompt and the session instructions are not modelled. `SessionUpdate` carries only the student, the level's rules and the lesson title.
- The report id (`Date.now()` and `Math.random`) is an input, and so are the day (`toISOString().slice(0, 10)`) and the clock. Days are integer day numbers, so "yesterday" is `today - 1`.
- The text of a caught error is an input (`errorText`, or `StepFailed(message)`). So is the parser the score route applies to the model's text (`parse`). An empty text is refused without calling the parser, because `JSON.parse("")` throws.
- Trimming and lower-casing cover ASCII only, not the full Unicode white-space and case rules.
- ScoreRoute.Validate: the 20-character gates of the route (app/api/score/route.js:19) and of the page (`ChatPage.RequestSpeakingScore`, app/chat/page.js:365) count characters, while JavaScript's `.length` counts UTF-16 code units. They agree inside the Basic Multilingual Plane (`ScoreRoute.TranscriptOkInBmp`). Outside it they differ: ten copies of U+1F600 have `.length` 20 and pass in JavaScript, but the model answers 400. The character count keeps the gate cheap in the proofs about the score request.
- Averages are exact `real` numbers. The best average is stored with `String(avg)` and read back with `parseFloat`; that round trip is not modelled, because floating point is not modelled.
- Reading the history, the streak and the best from storage on mount is not modelled. That includes parsing the stored history JSON and resetting the timer when the student key changes. The model starts from the already parsed `Standing` in `Saved`.
- `clearHistory` is not modelled: no control of the page calls it.
- The unmount cleanup and the `alert` calls are not modelled.
- `ChatPage.Step`: a Start that arrives while an abandoned start sequence is still suspended in an `await` is ignored. The page would run two sequences at once. The model keeps a single continuation.
- `ChatPage.CloseKeepsMicrophone`: `dc.onclose` does not call `cleanup`, so after a remote close the refs still hold the connection and the microphone. Stop is not offered while disconnected, and the next Start overwrites both refs, so they are never released (see "## Findings"). Apart from `ChatPage.StepReleasing`, the page model follows the code as written.
- `ChatPage.RestartLosesMicrophone`: only streams and connections are counted. The control channel of a lost connection is not counted: it has already closed and fires nothing more.
- Numbers: cursors, counts, days and the clock are unbounded `int`, and `String(n)` and `parseInt` are modelled exactly on them. In JavaScript they are doubles: they are exact only for safe integers (below 2^53 in size), and `String(n)` switches to exponent form from `1e21` (`String(1e21)` is `"1e+21"`, which `parseInt` reads as 1). The round-trip lemmas `Text.ParseIntRoundTrip`, `Text.ParseIntOfIntToString`, `Text.NatToStringValue` and `Progress.ReadIntRoundTrip` hold for the model's integers, and for the page only within that range.
- Trim: the contract of `Text.Trim` states only that neither end is white space and that the result is no longer. That it is the input with its white-space ends cut off is the separate lemma `Text.TrimIsSlice`, because every caller of `Trim` would otherwise carry that fact into its own proof.
- NormalizeName: likewise, the value of `Login.NormalizeName` is stated by the lemma `Login.NormalizeNameSpec`, not by its contract.
- CollapseFrom: likewise, what each white-space run becomes is stated by the lemmas `StudentKey.CollapseSpaceRun` and `StudentKey.CollapseWordRun`, not by the contract.
- KeepKeyChars: likewise, that every key character is kept in order is stated by `StudentKey.KeepKeyCharsConcat` and `StudentKey.KeepKeyCharsOne`.
- KeepDigits: likewise, that every digit is kept in order is stated by `Login.KeepDigitsConcat` and `Login.KeepDigitsOne`.
- The daily lock is written when the control channel opens, not when Start is pressed. A failed attempt therefore leaves the day unlocked, as the code does.
- `app/api/chat/route.js`, `app/api/add-student/route.js`, `app/api/test-db/route.js`, `app/admin/page.js` and `app/page.js` are not part of this model.

## Findings

| source | as written | input that shows it | evidently intended | confidence | as-written member | corrected member |
|---|---|---|---|---|---|---|
| app/login/page.js:48-49 | `ALLOWED_USERS[u]` on a plain object also finds members inherited from `Object.prototype`, which are truthy | user name "constructor" (or "__proto__") with PIN "1234": the page says "Wrong PIN. Try again." | a name that is no account is told "Username not found." | not executed | Login.ConstructorIsWrongPin | Login.LoginSucceedsIff |
| app/chat/page.js:624-636 | the page sends its SDP offer with `PUT /api/realtime`, but app/api/realtime/route.js exports only `GET` and `POST`, so the framework answers 405 | any Start on a new day: the token arrives, the offer is set, then the `PUT` gets 405 and the page fails with "PUT /api/realtime failed (405)" | the route relays the offer and returns the answer as `{sdp}`, so the channel opens | not executed | ChatPage.ShippedRouteRefusesAnswer | ChatPage.SessionGoesLive |
| app/chat/page.js:491-506 | `dc.onclose` (app/chat/page.js:606-615) keeps `localStreamRef` and `pcRef`; the next `startTalking` assigns both refs anew without `cleanup`, so the old stream is never stopped and the old connection never closed | a session that goes live, a remote close of the channel, then Start on the next day: once the microphone is granted and the token accepted, the first stream and connection are held by nothing | a new start releases what the refs still hold (or `onclose` runs `cleanup`), so no stream or connection outlives its session | not executed | ChatPage.RestartLosesMicrophone | ChatPage.RunReleasingLosesNothing |
