/**
 * The login page: a fixed allow-list of user names with four-digit PINs, an
 * ordered chain of checks on the typed name and PIN, the auth record written
 * on success, and the filter applied to every keystroke in the PIN field.
 *
 * Browser storage is a map from keys to the JSON values stored there; a
 * `JSON.stringify`-ed value is never the empty string, so a key that is present
 * reads back as a truthy text.
 */
module Login {
  import opened Common
  import opened Text
  import opened Json

  const AuthKey: string := "aminsir_auth_v1"

  /** User name to PIN. */
  type Roster = map<string, string>

  const AllowedUsers: Roster := map["ali" := "1111", "rahul" := "2222", "fatima" := "3333"]

  type Store = map<string, Json>

  /** `normalizeName`: trimmed and lower-cased. */
  function NormalizeName(s: string): (r: string)
    ensures IsTrimmed(r) && NoUpper(r) && |r| <= |s|
  {
    LowerKeepsTrimmed(Trim(s));
    Lower(Trim(s))
  }

  /** `r` is `s` from position `i` on, lower-cased, with only white space
      before and after. */
  predicate LowerAround(s: string, r: string, i: int) {
    && 0 <= i <= |s| - |r|
    && (forall k :: 0 <= k < |r| ==> r[k] == LowerChar(s[i + k]))
    && (forall k :: 0 <= k < i ==> IsSpace(s[k]))
    && (forall k :: i + |r| <= k < |s| ==> IsSpace(s[k]))
  }

  /** The normalised name is the input with its white-space ends cut off and
      every character of the rest lower-cased. */
  lemma NormalizeNameSpec(s: string)
    ensures exists i :: LowerAround(s, NormalizeName(s), i)
  {
    TrimIsSlice(s);
    var i :| SpaceAround(s, Trim(s), i);
    LowerOfSlice(s, Trim(s), i);
    assert NormalizeName(s) == Lower(Trim(s));
    assert LowerAround(s, NormalizeName(s), i);
  }

  lemma LowerOfSlice(s: string, t: string, i: int)
    requires SpaceAround(s, t, i)
    ensures LowerAround(s, Lower(t), i)
  {
  }

  /** A name that is already normalised stays as it is. */
  lemma NormalizeNameFixed(s: string)
    requires IsTrimmed(s) && NoUpper(s)
    ensures NormalizeName(s) == s
  {
    TrimmedIsFixed(s);
    LowerOfLower(s);
  }

  /** `/^\d{4}$/` */
  predicate IsFourDigits(p: string) {
    |p| == 4 && AllDigits(p)
  }

  datatype LoginError = EmptyName | BadPinFormat | UnknownUser | WrongPin

  function Message(e: LoginError): string {
    match e
    case EmptyName => "Please enter username."
    case BadPinFormat => "PIN must be 4 digits."
    case UnknownUser => "Username not found."
    case WrongPin => "Wrong PIN. Try again."
  }

  /** The record written under `AuthKey` on success. */
  function AuthRecord(user: string, at: int): Json {
    JObj(map["user" := JStr(user), "at" := JNum(at as real)])
  }

  /** The outcome of pressing "Login" and the storage afterwards. */
  datatype Outcome = Outcome(result: Result<string, LoginError>, store: Store)

  /** A roster every entry of which is a real account: a non-empty name and a
      four-digit PIN. */
  predicate ValidRoster(roster: Roster) {
    forall u :: u in roster ==> u != [] && IsFourDigits(roster[u])
  }

  lemma AllowedUsersValid()
    ensures ValidRoster(AllowedUsers)
  {
  }

  // ---------------------------------------------------------------- the check chain

  /** What `ALLOWED_USERS[u]` yields on a plain JavaScript object: an own
      entry, a member inherited from `Object.prototype` (truthy, and never
      equal to a string), or `undefined`. */
  datatype Lookup = Own(pin: string) | Inherited | Missing

  /** The members of `Object.prototype` whose names are already lower case,
      so that a normalised name can reach them. */
  const PrototypeNames: set<string> := {"constructor", "__proto__"}

  function LookupAsWritten(roster: Roster, u: string): Lookup {
    if u in roster then Own(roster[u])
    else if u in PrototypeNames then Inherited
    else Missing
  }

  /** The check chain as the page runs it, with the inherited lookup. */
  function LoginAsWritten(roster: Roster, store: Store, username: string, pin: string, now: int): (o: Outcome)
    ensures o.result.Err? ==> o.store == store
  {
    var u := NormalizeName(username);
    var p := Trim(pin);
    if u == [] then Outcome(Err(EmptyName), store)
    else if !IsFourDigits(p) then Outcome(Err(BadPinFormat), store)
    else match LookupAsWritten(roster, u)
      case Missing => Outcome(Err(UnknownUser), store)
      case Inherited => Outcome(Err(WrongPin), store)
      case Own(expected) =>
        if expected == [] then Outcome(Err(UnknownUser), store)
        else if p != expected then Outcome(Err(WrongPin), store)
        else Outcome(Ok(u), store[AuthKey := AuthRecord(u, now)])
  }

  /** A name that is no account but names a prototype member is told the PIN
      is wrong rather than that the name is unknown. */
  lemma InheritedNameIsWrongPin(roster: Roster, store: Store, username: string, pin: string, now: int)
    requires NormalizeName(username) in PrototypeNames && NormalizeName(username) !in roster
    requires IsFourDigits(Trim(pin))
    ensures LoginAsWritten(roster, store, username, pin, now).result == Err(WrongPin)
    ensures Login(roster, store, username, pin, now).result == Err(UnknownUser)
  {
  }

  /** The name "constructor" with the PIN "1234" shows the discrepancy. */
  lemma ConstructorIsWrongPin(name: string, pin: string, store: Store, now: int)
    requires name == "constructor" && pin == "1234"
    ensures LoginAsWritten(AllowedUsers, store, name, pin, now).result == Err(WrongPin)
    ensures Login(AllowedUsers, store, name, pin, now).result == Err(UnknownUser)
  {
    assert IsTrimmed(name) && NoUpper(name);
    NormalizeNameFixed(name);
    assert IsTrimmed(pin);
    TrimmedIsFixed(pin);
    InheritedNameIsWrongPin(AllowedUsers, store, name, pin, now);
  }

  /** The check chain with an own-property lookup: what the page's messages
      promise for every name that is not an account. */
  function Login(roster: Roster, store: Store, username: string, pin: string, now: int): (o: Outcome)
    ensures var u := NormalizeName(username); var p := Trim(pin);
      && (u == [] ==> o.result == Err(EmptyName))
      && (u != [] && !IsFourDigits(p) ==> o.result == Err(BadPinFormat))
      && (u != [] && IsFourDigits(p) && (u !in roster || roster[u] == []) ==> o.result == Err(UnknownUser))
      && (u != [] && IsFourDigits(p) && u in roster && roster[u] != [] && p != roster[u] ==> o.result == Err(WrongPin))
    ensures o.result.Err? ==> o.store == store
    ensures o.result.Ok? ==> o.store == store[AuthKey := AuthRecord(NormalizeName(username), now)]
  {
    var u := NormalizeName(username);
    var p := Trim(pin);
    if u == [] then Outcome(Err(EmptyName), store)
    else if !IsFourDigits(p) then Outcome(Err(BadPinFormat), store)
    else if u !in roster || roster[u] == [] then Outcome(Err(UnknownUser), store)
    else if p != roster[u] then Outcome(Err(WrongPin), store)
    else Outcome(Ok(u), store[AuthKey := AuthRecord(u, now)])
  }

  /** Login succeeds exactly when the normalised name is an account and the
      trimmed PIN is its PIN; the signed-in user is the normalised name. */
  lemma LoginSucceedsIff(roster: Roster, store: Store, username: string, pin: string, now: int)
    requires ValidRoster(roster)
    ensures var o := Login(roster, store, username, pin, now);
      o.result.Ok? <==> NormalizeName(username) in roster && Trim(pin) == roster[NormalizeName(username)]
    ensures var o := Login(roster, store, username, pin, now);
      o.result.Ok? ==> o.result.value == NormalizeName(username)
  {
  }

  /** Away from the prototype names the page's lookup is the own-property one. */
  lemma LoginAgreesAwayFromPrototype(roster: Roster, store: Store, username: string, pin: string, now: int)
    requires NormalizeName(username) !in PrototypeNames || NormalizeName(username) in roster
    ensures LoginAsWritten(roster, store, username, pin, now) == Login(roster, store, username, pin, now)
  {
  }

  /** The page sends a visitor with a stored auth record straight to the chat. */
  predicate RedirectsOnMount(store: Store) {
    AuthKey in store
  }

  lemma SuccessRedirectsNextTime(roster: Roster, store: Store, username: string, pin: string, now: int)
    ensures Login(roster, store, username, pin, now).result.Ok? ==>
      RedirectsOnMount(Login(roster, store, username, pin, now).store)
  {
  }

  // ---------------------------------------------------------------- the PIN field

  /** `.replace(/[^\d]/g, "")` */
  function KeepDigits(s: string): (r: string)
    ensures AllDigits(r) && |r| <= |s|
    ensures AllDigits(s) ==> r == s
  {
    if s == [] then []
    else (if IsDigit(s[0]) then [s[0]] else []) + KeepDigits(s[1..])
  }

  /** Filtering a text piece by piece: every digit typed is kept, in order,
      and nothing else. */
  lemma {:induction false} KeepDigitsConcat(a: string, b: string)
    ensures KeepDigits(a + b) == KeepDigits(a) + KeepDigits(b)
    decreases |a|
  {
    if a == [] {
      assert a + b == b;
    } else {
      assert (a + b)[0] == a[0] && (a + b)[1..] == a[1..] + b;
      KeepDigitsConcat(a[1..], b);
      var h := if IsDigit(a[0]) then [a[0]] else [];
      assert KeepDigits(a + b) == h + (KeepDigits(a[1..]) + KeepDigits(b));
      assert h + (KeepDigits(a[1..]) + KeepDigits(b)) == (h + KeepDigits(a[1..])) + KeepDigits(b);
    }
  }

  lemma KeepDigitsOne(c: char)
    ensures KeepDigits([c]) == (if IsDigit(c) then [c] else [])
  {
    assert [c][1..] == [];
  }

  /** The PIN field's input filter: the digits typed, at most the first four. */
  function FilterPin(s: string): (r: string)
    ensures AllDigits(r) && |r| == Min(4, |KeepDigits(s)|)
    ensures r <= KeepDigits(s)
  {
    var d := KeepDigits(s);
    d[..Min(4, |d|)]
  }

  /** Filtering again changes nothing. */
  lemma FilterPinIdempotent(s: string)
    ensures FilterPin(FilterPin(s)) == FilterPin(s)
  {
    var r := FilterPin(s);
    assert KeepDigits(r) == r;
  }

  /** A filtered PIN of full length passes the format check. */
  lemma FilteredPinFormat(s: string)
    ensures |FilterPin(s)| == 4 ==> IsFourDigits(Trim(FilterPin(s)))
  {
    var r := FilterPin(s);
    if |r| == 4 {
      assert !IsSpace(r[0]) && !IsSpace(r[3]);
      TrimmedIsFixed(r);
    }
  }
}
