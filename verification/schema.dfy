/**
 * The JSON schema the scoring route hands to the model as its required output
 * format. The route does not re-check it; it is stated here as a predicate so
 * that properties of well-formed reports can be proved.
 */
module ReportSchema {
  import opened Json

  const TopLevelKeys: set<string> :=
    {"student", "level", "lesson", "scores", "strengths", "improvements", "corrected_sentences", "homework"}

  const ScoreKeys: set<string> := {"pronunciation", "grammar", "fluency", "confidence"}

  /** An integer from 1 to 5. */
  predicate IsScore(v: Json) {
    v.JNum? && v.n.Floor as real == v.n && 1.0 <= v.n <= 5.0
  }

  /** An array of between `lo` and `hi` strings. */
  predicate IsStringList(v: Json, lo: nat, hi: nat) {
    v.JArr? && lo <= |v.items| <= hi && forall i :: 0 <= i < |v.items| ==> v.items[i].JStr?
  }

  /** `{student_said, better}`, both strings, nothing else. */
  predicate IsCorrection(v: Json) {
    v.JObj? && v.fields.Keys == {"student_said", "better"}
    && v.fields["student_said"].JStr? && v.fields["better"].JStr?
  }

  predicate IsScores(v: Json) {
    v.JObj? && v.fields.Keys == ScoreKeys
    && IsScore(v.fields["pronunciation"]) && IsScore(v.fields["grammar"])
    && IsScore(v.fields["fluency"]) && IsScore(v.fields["confidence"])
  }

  predicate IsCorrectionList(v: Json) {
    v.JArr? && |v.items| <= 3 && forall i :: 0 <= i < |v.items| ==> IsCorrection(v.items[i])
  }

  /** Every one of the eight top-level properties present and nothing else,
      each of the type and size the schema declares. */
  predicate WellFormedReport(v: Json) {
    && v.JObj?
    && v.fields.Keys == TopLevelKeys
    && v.fields["student"].JStr?
    && v.fields["level"].JStr?
    && v.fields["lesson"].JStr?
    && IsScores(v.fields["scores"])
    && IsStringList(v.fields["strengths"], 2, 4)
    && IsStringList(v.fields["improvements"], 2, 5)
    && IsCorrectionList(v.fields["corrected_sentences"])
    && v.fields["homework"].JStr?
  }
}
