/**
 * The student's display name and the per-student key that every piece of
 * browser storage for that student is filed under.
 */
module StudentKey {
  import opened Common
  import opened Text

  /** The characters a student key may hold: `[a-z0-9_]`. */
  predicate IsKeyChar(c: char) {
    'a' <= c <= 'z' || IsDigit(c) || c == '_'
  }

  predicate IsSafeKey(k: string) {
    k != [] && forall i :: 0 <= i < |k| ==> IsKeyChar(k[i])
  }

  /** The name the page greets: the trimmed `name` query parameter, else the
      trimmed stored `studentName`, else `"Student"`. A missing parameter or
      stored value (or a storage error) is `None`. */
  function StudentName(fromUrl: Option<string>, fromStorage: Option<string>): (r: string)
    ensures r != [] && IsTrimmed(r)
    ensures Trim(fromUrl.GetOr("")) != [] ==> r == Trim(fromUrl.GetOr(""))
    ensures Trim(fromUrl.GetOr("")) == [] && Trim(fromStorage.GetOr("")) != [] ==> r == Trim(fromStorage.GetOr(""))
    ensures Trim(fromUrl.GetOr("")) == [] && Trim(fromStorage.GetOr("")) == [] ==> r == "Student"
  {
    var url := Trim(fromUrl.GetOr(""));
    var stored := Trim(fromStorage.GetOr(""));
    if url != [] then url
    else if stored != [] then stored
    else "Student"
  }

  /** `.replace(/\s+/g, "_")`: every maximal run of white space becomes one
      underscore. `inRun` says the previous character was white space. */
  function CollapseFrom(s: string, inRun: bool): (r: string)
    ensures NoSpace(r)
    ensures NoSpace(s) ==> r == s
  {
    if s == [] then []
    else if IsSpace(s[0]) then (if inRun then [] else "_") + CollapseFrom(s[1..], true)
    else [s[0]] + CollapseFrom(s[1..], false)
  }

  /** A run of white space, followed by anything, is one underscore when it
      starts a run (none inside a run), then the rest. */
  lemma {:induction false} CollapseSpaceRun(w: string, s: string, inRun: bool)
    requires w != [] && AllSpace(w)
    ensures CollapseFrom(w + s, inRun) == (if inRun then [] else "_") + CollapseFrom(s, true)
    decreases |w|
  {
    var x := w + s;
    assert x[0] == w[0] && x[1..] == w[1..] + s;
    if |w| > 1 {
      CollapseSpaceRun(w[1..], s, true);
    } else {
      assert w[1..] + s == s;
    }
  }

  /** A run of other characters is kept as it is, and ends any white-space run. */
  lemma {:induction false} CollapseWordRun(v: string, s: string, inRun: bool)
    requires v != [] && NoSpace(v)
    ensures CollapseFrom(v + s, inRun) == v + CollapseFrom(s, false)
    decreases |v|
  {
    var x := v + s;
    assert x[0] == v[0] && x[1..] == v[1..] + s;
    if |v| > 1 {
      CollapseWordRun(v[1..], s, false);
      assert [v[0]] + (v[1..] + CollapseFrom(s, false)) == v + CollapseFrom(s, false);
    } else {
      assert v[1..] + s == s;
      assert v == [v[0]];
    }
  }

  function CollapseSpaces(s: string): string {
    CollapseFrom(s, false)
  }

  /** `.replace(/[^a-z0-9_]/g, "")`: keeps the key characters, in order. */
  function KeepKeyChars(s: string): (r: string)
    ensures |r| <= |s|
    ensures forall i :: 0 <= i < |r| ==> IsKeyChar(r[i])
    ensures (forall i :: 0 <= i < |s| ==> IsKeyChar(s[i])) ==> r == s
  {
    if s == [] then []
    else (if IsKeyChar(s[0]) then [s[0]] else []) + KeepKeyChars(s[1..])
  }

  /** Dropping the other characters piece by piece: every key character is
      kept, in order, and nothing else. */
  lemma {:induction false} KeepKeyCharsConcat(a: string, b: string)
    ensures KeepKeyChars(a + b) == KeepKeyChars(a) + KeepKeyChars(b)
    decreases |a|
  {
    if a == [] {
      assert a + b == b;
    } else {
      assert (a + b)[0] == a[0] && (a + b)[1..] == a[1..] + b;
      KeepKeyCharsConcat(a[1..], b);
      var h := if IsKeyChar(a[0]) then [a[0]] else [];
      assert KeepKeyChars(a + b) == h + (KeepKeyChars(a[1..]) + KeepKeyChars(b));
      assert h + (KeepKeyChars(a[1..]) + KeepKeyChars(b)) == (h + KeepKeyChars(a[1..])) + KeepKeyChars(b);
    }
  }

  lemma KeepKeyCharsOne(c: char)
    ensures KeepKeyChars([c]) == (if IsKeyChar(c) then [c] else [])
  {
    assert [c][1..] == [];
  }

  /** `safeStudentKey`: trim, lower-case, white-space runs to `_`, drop every
      other character outside `[a-z0-9_]`, and `"student"` if nothing is left. */
  function SafeStudentKey(name: string): (k: string)
    ensures IsSafeKey(k)
  {
    OrDefaultKey(KeyChars(if name == [] then "Student" else name))
  }

  /** The key characters that survive the clean-up of `s`. */
  function KeyChars(s: string): (r: string)
    ensures forall i :: 0 <= i < |r| ==> IsKeyChar(r[i])
  {
    KeepKeyChars(CollapseSpaces(Lower(Trim(s))))
  }

  /** `"student"` when nothing survived. */
  function OrDefaultKey(safe: string): (k: string)
    requires forall i :: 0 <= i < |safe| ==> IsKeyChar(safe[i])
    ensures IsSafeKey(k)
  {
    if safe == [] then "student" else safe
  }

  /** A key that is already safe is its own key. */
  lemma SafeKeyIsFixed(k: string)
    requires IsSafeKey(k)
    ensures SafeStudentKey(k) == k
  {
    assert IsTrimmed(k);
    TrimmedIsFixed(k);
    assert Lower(k) == k;
    assert NoSpace(k);
  }

  /** Normalising a key again returns it unchanged. */
  lemma SafeStudentKeyIdempotent(name: string)
    ensures SafeStudentKey(SafeStudentKey(name)) == SafeStudentKey(name)
  {
    SafeKeyIsFixed(SafeStudentKey(name));
  }

  // ---------------------------------------------------------------- storage keys

  /** The per-student values the page keeps in browser storage. */
  datatype Field = LessonDay | Level | ScoreHistory | Streak | StreakLast | BestScore | LastSessionDay

  function Prefix(f: Field): (p: string)
    ensures |p| >= 6
  {
    match f
    case LessonDay => "lessonDay_"
    case Level => "level_"
    case ScoreHistory => "scoreHistory_"
    case Streak => "streak_"
    case StreakLast => "streakLast_"
    case BestScore => "bestScore_"
    case LastSessionDay => "lastSessionDay_"
  }

  /** The storage key of field `f` for the student whose key is `key`. */
  function StorageKey(f: Field, key: string): (r: string)
    ensures |r| == |Prefix(f)| + |key|
    ensures r[..|Prefix(f)|] == Prefix(f) && r[|Prefix(f)|..] == key
  {
    Prefix(f) + key
  }

  /** A position, inside both prefixes, at which two different fields' prefixes differ. */
  function DiffIndex(f1: Field, f2: Field): nat {
    var p1 := Prefix(f1);
    var p2 := Prefix(f2);
    if p1[0] != p2[0] then 0
    else if p1[1] != p2[1] then 1
    else if p1[2] != p2[2] then 2
    else 6
  }

  lemma PrefixesDiverge(f1: Field, f2: Field)
    requires f1 != f2
    ensures DiffIndex(f1, f2) < |Prefix(f1)| && DiffIndex(f1, f2) < |Prefix(f2)|
    ensures Prefix(f1)[DiffIndex(f1, f2)] != Prefix(f2)[DiffIndex(f1, f2)]
  {
  }

  /** The storage layout never collides: two storage keys are equal exactly when
      they are the same field of the same student, whatever the keys hold. */
  lemma StorageKeysDistinct(f1: Field, k1: string, f2: Field, k2: string)
    ensures StorageKey(f1, k1) == StorageKey(f2, k2) <==> f1 == f2 && k1 == k2
  {
    if f1 != f2 {
      PrefixesDiverge(f1, f2);
      var i := DiffIndex(f1, f2);
      assert StorageKey(f1, k1)[i] == Prefix(f1)[i];
      assert StorageKey(f2, k2)[i] == Prefix(f2)[i];
    }
  }
}
