/**
 * The session transcript the chat page accumulates: an append-only text of
 * lines, each ended by a newline, fed by the page's own `SYSTEM:` notes and by
 * the text frames the voice model sends over the control channel.
 */
module Transcript {
  import opened Common
  import opened Text
  import opened Json

  /** `appendTranscript(line)`: an empty line is ignored; any other line is
      trimmed and appended with a newline. */
  function Append(t: string, line: string): (r: string)
    ensures t <= r
    ensures line == [] <==> r == t
    ensures line != [] ==> r[|t|..] == Trim(line) + "\n"
  {
    if line == [] then t else t + Trim(line) + "\n"
  }

  /** The transcript as its list of lines: each line followed by a newline. */
  function Join(lines: seq<string>): string {
    if lines == [] then [] else Join(lines[..|lines| - 1]) + lines[|lines| - 1] + "\n"
  }

  /** The transcript is always the joined list of the lines recorded so far:
      appending a non-empty line records exactly its trimmed form as one more
      line, and the lines before it stay as they were. */
  lemma AppendRecordsLine(lines: seq<string>, line: string)
    requires line != []
    ensures Append(Join(lines), line) == Join(lines + [Trim(line)])
  {
    var next := lines + [Trim(line)];
    assert next[..|next| - 1] == lines;
  }

  // ---------------------------------------------------------------- incoming frames

  /** The text the tutor spoke, as `dc.onmessage` picks it: the first of
      `delta`, `text`, `output_text`, `response.output_text`, `content` that is
      neither `null` nor `undefined`. */
  function AssistantText(msg: Option<Json>): Option<Json> {
    Coalesce(Get(msg, "delta"),
      Coalesce(Get(msg, "text"),
        Coalesce(Get(msg, "output_text"),
          Coalesce(Get(Get(msg, "response"), "output_text"), Get(msg, "content")))))
  }

  /** The student's transcribed speech: the first of `transcript`,
      `input_audio_transcription.transcript` and
      `conversation.item.input_audio_transcription.transcript` that is neither
      `null` nor `undefined`. */
  function StudentText(msg: Option<Json>): Option<Json> {
    Coalesce(Get(msg, "transcript"),
      Coalesce(Get(Get(msg, "input_audio_transcription"), "transcript"),
        Get(Get(Get(Get(msg, "conversation"), "item"), "input_audio_transcription"), "transcript")))
  }

  /** A picked value is recorded only when it is a string that is not blank. */
  predicate IsSpoken(v: Option<Json>) {
    v.Some? && v.value.JStr? && Trim(v.value.s) != []
  }

  /** The line a picked value adds, `tag` followed by the text with its
      trailing white space dropped, or nothing. */
  function AddedLine(tag: string, v: Option<Json>): string {
    if IsSpoken(v) then tag + TrimEnd(v.value.s) + "\n" else []
  }

  /** Appending a tagged text whose tag starts with a letter: the whole line is
      trimmed, which only touches the end of the text. */
  lemma AppendTagged(t: string, tag: string, s: string)
    requires tag != [] && !IsSpace(tag[0])
    requires Trim(s) != []
    ensures Append(t, tag + s) == t + (tag + TrimEnd(s) + "\n")
  {
    TrimEmptyIff(s);
    TrimTagged(tag, s);
    ConcatAssoc(t, tag + TrimEnd(s), "\n");
  }

  lemma ConcatAssoc(a: string, b: string, c: string)
    ensures a + b + c == a + (b + c)
  {
  }

  /** Appends `tag` and the picked text when the text is spoken. */
  function AppendPicked(t: string, tag: string, v: Option<Json>): string {
    if IsSpoken(v) then Append(t, tag + v.value.s) else t
  }

  lemma AppendPickedAdds(t: string, tag: string, v: Option<Json>)
    requires tag != [] && !IsSpace(tag[0])
    ensures AppendPicked(t, tag, v) == t + AddedLine(tag, v)
  {
    if IsSpoken(v) {
      AppendTagged(t, tag, v.value.s);
    } else {
      assert t + [] == t;
    }
  }

  /** `dc.onmessage` for one frame; `frame` is the parsed JSON, `None` when the
      frame is not valid JSON (the handler then swallows the error). */
  function OnMessage(t: string, frame: Option<Json>): string {
    if frame.None? then t
    else AppendPicked(AppendPicked(t, "AI: ", AssistantText(frame)), "STUDENT: ", StudentText(frame))
  }

  /** A frame only ever extends the transcript: an unparsable one leaves it
      unchanged, a parsed one adds at most one `AI:` line and then at most one
      `STUDENT:` line, each only for a non-blank string the fallback chains
      pick. */
  lemma OnMessageAppends(t: string, frame: Option<Json>)
    ensures t <= OnMessage(t, frame)
    ensures frame.None? ==> OnMessage(t, frame) == t
    ensures frame.Some? ==>
      OnMessage(t, frame) == t + AddedLine("AI: ", AssistantText(frame)) + AddedLine("STUDENT: ", StudentText(frame))
  {
    if frame.Some? {
      var t1 := AppendPicked(t, "AI: ", AssistantText(frame));
      AppendPickedAdds(t, "AI: ", AssistantText(frame));
      AppendPickedAdds(t1, "STUDENT: ", StudentText(frame));
    }
  }
}
