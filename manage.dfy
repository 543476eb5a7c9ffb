/**
  The configuration tool (my-rtmp-server/manage.js).  It edits two JSON
  files: the platform configuration (platform id -> name, RTMP URL, icon,
  enabled flag, description) and the user keys (user id -> an object with
  `name`, `email` and one stream key per platform id).

  A JavaScript object is modelled as a `Table`: its keys in insertion order
  (the order `Object.keys` lists them in) and a map from key to value.
  Assigning to a key that is absent appends it to the order; assigning to a
  key that is present keeps its place.  A user object is a table of strings
  whose keys include `name` and `email`; a platform whose id is `name` or
  `email` shares that field, as it does in the source.

  Loading and saving a file are reads and writes of the state; the number of
  saves of each file is counted.  Every prompt's answer is a parameter.
*/
module Manage {
  import opened Wrappers
  import opened Text

  // ---------------------------------------------------------------------
  // Objects as ordered tables
  // ---------------------------------------------------------------------

  datatype Table<V> = Table(order: seq<string>, entries: map<string, V>)

  /** The order lists every key exactly once. */
  ghost predicate TableWF<V>(t: Table<V>) {
    Distinct(t.order) && forall k :: k in t.entries <==> k in t.order
  }

  /** `obj[k] = v` */
  function Insert<V>(t: Table<V>, k: string, v: V): (r: Table<V>)
    ensures r.entries == t.entries[k := v]
    ensures r.order == if k in t.entries then t.order else t.order + [k]
  {
    Table(if k in t.entries then t.order else t.order + [k], t.entries[k := v])
  }

  lemma InsertKeepsWF<V>(t: Table<V>, k: string, v: V)
    ensures TableWF(t) ==> TableWF(Insert(t, k, v))
  {
  }

  function EmptyTable<V>(): (t: Table<V>)
    ensures TableWF(t) && t.order == []
  {
    Table([], map[])
  }

  // ---------------------------------------------------------------------
  // The two files
  // ---------------------------------------------------------------------

  datatype Platform = Platform(name: string, rtmpUrl: string, icon: string, enabled: bool, description: string)

  /** A user object: field name -> string value. */
  type User = map<string, string>

  /** A missing file loads as `{}`. */
  datatype Files = Files(config: Table<Platform>, keys: Table<User>)

  function NoFiles(): (f: Files)
    ensures FilesWF(f) && Complete(f)
  {
    Files(EmptyTable(), EmptyTable())
  }

  ghost predicate FilesWF(f: Files) {
    TableWF(f.config) && TableWF(f.keys)
  }

  /** Every user has a field for every platform. */
  ghost predicate Complete(f: Files) {
    forall u, p | u in f.keys.entries && p in f.config.entries :: p in f.keys.entries[u]
  }

  // ---------------------------------------------------------------------
  // Configured platforms (listUsers, viewConfiguration)
  // ---------------------------------------------------------------------

  /** `key !== 'name' && key !== 'email' && user[key] && user[key].length > 0` */
  predicate Configured(user: User, key: string) {
    key != "name" && key != "email" && key in user && user[key] != ""
  }

  /** The platforms listed for a user; the count printed is its size. */
  function ConfiguredPlatforms(user: User): set<string> {
    set k | k in user && Configured(user, k)
  }

  // ---------------------------------------------------------------------
  // addUser
  // ---------------------------------------------------------------------

  /** `{ name, email: email || '' }`, then `''` for every platform id in turn. */
  function NewUser(name: string, email: string, platforms: seq<string>): (u: User)
    ensures forall k :: k in u <==> k == "name" || k == "email" || k in platforms
    ensures forall p | p in platforms :: u[p] == ""
    ensures "name" !in platforms ==> u["name"] == name
    ensures "email" !in platforms ==> u["email"] == email
    decreases |platforms|
  {
    if platforms == [] then map["name" := name, "email" := email]
    else
      var init := platforms[..|platforms| - 1];
      assert platforms == init + [platforms[|platforms| - 1]];
      NewUser(name, email, init)[platforms[|platforms| - 1] := ""]
  }

  /** A new user has no platform configured. */
  lemma NewUserUnconfigured(name: string, email: string, platforms: seq<string>)
    ensures ConfiguredPlatforms(NewUser(name, email, platforms)) == {}
  {
    var u := NewUser(name, email, platforms);
    forall k | k in u ensures !Configured(u, k) {
    }
  }

  /** The properties every plain object inherits from `Object.prototype`.
      `obj[name]` reads a function (or, for `__proto__`, the prototype) for
      each of them, so a truthiness test sees them as present. */
  const InheritedNames: set<string> := {
    "constructor", "toString", "toLocaleString", "valueOf", "hasOwnProperty",
    "isPrototypeOf", "propertyIsEnumerable", "__defineGetter__", "__defineSetter__",
    "__lookupGetter__", "__lookupSetter__", "__proto__"}

  /** `if (table[id])` on a table loaded from JSON: an own key holds an
      object, hence truthy, and so is every inherited name. */
  predicate IdTaken<V>(t: Table<V>, id: string) {
    id in t.entries || id in InheritedNames
  }

  /** addUser with the three answers: an id that `keys[userId]` finds (an own
      key or an inherited name) is rejected and nothing is written. */
  function AfterAddUser(f: Files, userId: string, userName: string, email: string): (r: Files)
    ensures IdTaken(f.keys, userId) ==> r == f
    ensures !IdTaken(f.keys, userId) ==>
      r.config == f.config && r.keys.order == f.keys.order + [userId]
      && userId in r.keys.entries && ConfiguredPlatforms(r.keys.entries[userId]) == {}
      && ("name" !in f.config.order ==> Lookup(r.keys.entries[userId], "name") == Some(userName))
    ensures forall u | u in f.keys.entries :: u in r.keys.entries && r.keys.entries[u] == f.keys.entries[u]
    ensures FilesWF(f) ==> FilesWF(r)
    ensures FilesWF(f) && Complete(f) ==> Complete(r)
  {
    if IdTaken(f.keys, userId) then f
    else
      NewUserUnconfigured(userName, email, f.config.order);
      AddUserKeeps(f, userId, NewUser(userName, email, f.config.order));
      Files(f.config, Insert(f.keys, userId, NewUser(userName, email, f.config.order)))
  }

  /** An id naming an inherited property is refused by both add commands,
      whatever the files hold, while a fresh name that is no own key is
      accepted. */
  lemma InheritedIdsRefused(f: Files, name: string, email: string)
    requires FilesWF(f)
    ensures AfterAddUser(f, "toString", name, email) == f
    ensures AfterAddPlatform(f, "constructor", name, "", "", "", "y") == f
    ensures "alice" !in f.keys.entries ==> "alice" in AfterAddUser(f, "alice", name, email).keys.entries
  {
  }

  /** Adding a user whose object has every platform field keeps both properties. */
  lemma AddUserKeeps(f: Files, userId: string, user: User)
    requires userId !in f.keys.entries
    requires forall p | p in f.config.order :: p in user
    ensures var r := Files(f.config, Insert(f.keys, userId, user));
      (FilesWF(f) ==> FilesWF(r)) && (FilesWF(f) && Complete(f) ==> Complete(r))
  {
    var r := Files(f.config, Insert(f.keys, userId, user));
    if FilesWF(f) {
      InsertKeepsWF(f.keys, userId, user);
      if Complete(f) {
        forall u, p | u in r.keys.entries && p in r.config.entries ensures p in r.keys.entries[u] {
          if u == userId {
            assert p in f.config.order;
          }
        }
      }
    }
  }

  // ---------------------------------------------------------------------
  // editUserKeys
  // ---------------------------------------------------------------------

  /** The prompts of editUserKeys, one per platform in order: a blank answer
      keeps the field, any other answer is stored trimmed. */
  function ApplyAnswers(user: User, platforms: seq<string>, answers: seq<string>): (r: User)
    requires |answers| == |platforms|
    ensures forall k | k in user :: k in r
    decreases |platforms|
  {
    if platforms == [] then user
    else
      var n := |platforms|;
      var prev := ApplyAnswers(user, platforms[..n - 1], answers[..n - 1]);
      var t := Trim(answers[n - 1]);
      if t == "" then prev else prev[platforms[n - 1] := t]
  }

  /** What the prompts do to one user object, field by field: a non-blank
      answer is stored trimmed, a blank one leaves the field as it was
      (present or absent), and fields of no listed platform do not change. */
  lemma ApplyAnswersEffect(user: User, platforms: seq<string>, answers: seq<string>)
    requires |answers| == |platforms| && Distinct(platforms)
    ensures var r := ApplyAnswers(user, platforms, answers);
      (forall i | 0 <= i < |platforms| && Trim(answers[i]) != "" :: Lookup(r, platforms[i]) == Some(Trim(answers[i])))
      && (forall i | 0 <= i < |platforms| && Trim(answers[i]) == "" :: Lookup(r, platforms[i]) == Lookup(user, platforms[i]))
      && (forall k | k !in platforms :: Lookup(r, k) == Lookup(user, k))
  {
    forall i | 0 <= i < |platforms|
      ensures Lookup(ApplyAnswers(user, platforms, answers), platforms[i])
        == if Trim(answers[i]) != "" then Some(Trim(answers[i])) else Lookup(user, platforms[i])
    {
      AnswerAt(user, platforms, answers, i);
    }
    forall k | k !in platforms ensures Lookup(ApplyAnswers(user, platforms, answers), k) == Lookup(user, k) {
      UnlistedUnchanged(user, platforms, answers, k);
    }
  }

  /** The field of the i-th platform after the prompts. */
  lemma {:induction false} AnswerAt(user: User, platforms: seq<string>, answers: seq<string>, i: nat)
    requires |answers| == |platforms| && Distinct(platforms) && i < |platforms|
    ensures Lookup(ApplyAnswers(user, platforms, answers), platforms[i])
      == if Trim(answers[i]) != "" then Some(Trim(answers[i])) else Lookup(user, platforms[i])
    decreases |platforms|
  {
    var n := |platforms|;
    var init, ainit := platforms[..n - 1], answers[..n - 1];
    if i == n - 1 {
      UnlistedUnchanged(user, init, ainit, platforms[i]);
    } else {
      assert Distinct(init) by {
        forall x, y | 0 <= x < y < |init| ensures init[x] != init[y] {
          assert init[x] == platforms[x] && init[y] == platforms[y];
        }
      }
      AnswerAt(user, init, ainit, i);
      assert init[i] == platforms[i] && ainit[i] == answers[i];
      assert platforms[i] != platforms[n - 1];
    }
  }

  /** A key no prompt is about keeps its field. */
  lemma {:induction false} UnlistedUnchanged(user: User, platforms: seq<string>, answers: seq<string>, k: string)
    requires |answers| == |platforms| && k !in platforms
    ensures Lookup(ApplyAnswers(user, platforms, answers), k) == Lookup(user, k)
    decreases |platforms|
  {
    if platforms != [] {
      var n := |platforms|;
      assert k != platforms[n - 1];
      UnlistedUnchanged(user, platforms[..n - 1], answers[..n - 1], k);
    }
  }

  /** Answers replace keys but never clear one: every platform configured
      before stays configured, and so does every platform answered. */
  lemma {:induction false} ApplyAnswersKeepsConfigured(user: User, platforms: seq<string>, answers: seq<string>)
    requires |answers| == |platforms|
    ensures var r := ApplyAnswers(user, platforms, answers);
      (forall k | Configured(user, k) :: Configured(r, k))
      && (forall i | 0 <= i < |platforms| && Trim(answers[i]) != "" && platforms[i] != "name" && platforms[i] != "email" ::
            Configured(r, platforms[i]))
    decreases |platforms|
  {
    if platforms != [] {
      var n := |platforms|;
      ApplyAnswersKeepsConfigured(user, platforms[..n - 1], answers[..n - 1]);
      forall i | 0 <= i < n - 1 ensures platforms[i] == platforms[..n - 1][i] && answers[i] == answers[..n - 1][i] {
      }
    }
  }

  /** editUserKeys for an existing user: only that user's object changes, and
      the keys file is saved once. */
  function AfterEditUserKeys(f: Files, userId: string, answers: seq<string>): (r: Files)
    requires userId in f.keys.entries && |answers| == |f.config.order|
    ensures r.config == f.config && r.keys.order == f.keys.order
    ensures forall u | u in f.keys.entries && u != userId :: u in r.keys.entries && r.keys.entries[u] == f.keys.entries[u]
    ensures userId in r.keys.entries
    ensures FilesWF(f) ==> FilesWF(r)
    ensures FilesWF(f) && Complete(f) ==> Complete(r)
  {
    InsertKeepsWF(f.keys, userId, ApplyAnswers(f.keys.entries[userId], f.config.order, answers));
    Files(f.config, Insert(f.keys, userId, ApplyAnswers(f.keys.entries[userId], f.config.order, answers)))
  }

  // ---------------------------------------------------------------------
  // addPlatform
  // ---------------------------------------------------------------------

  /** `enabled.toLowerCase() === 'y'`: no character other than `y` and `Y`
      lower-cases to the one-character string "y". */
  predicate IsYes(answer: string) {
    answer == "y" || answer == "Y"
  }

  /** The icon used when the answer is empty (a green circle). */
  const DefaultIcon: string := "\U{1F7E2}"

  /** The stored platform record: `icon || '🟢'`, `description || ''`. */
  function NewPlatform(name: string, rtmpUrl: string, icon: string, description: string, enabled: string): (p: Platform)
    ensures p.icon != "" && (icon != "" ==> p.icon == icon)
    ensures p.enabled <==> enabled == "y" || enabled == "Y"
    ensures p.name == name && p.rtmpUrl == rtmpUrl && p.description == description
  {
    Platform(name, rtmpUrl, if icon == "" then DefaultIcon else icon, IsYes(enabled), description)
  }

  /** `keys[userId][platformId] = ''` for the listed users. */
  function BlankKeyForAll(keys: Table<User>, users: seq<string>, platformId: string): (r: Table<User>)
    ensures r.order == keys.order
    ensures forall u :: u in r.entries <==> u in keys.entries
    ensures forall u | u in keys.entries ::
      r.entries[u] == if u in users then keys.entries[u][platformId := ""] else keys.entries[u]
    decreases |users|
  {
    if users == [] then keys
    else
      var n := |users|;
      var prev := BlankKeyForAll(keys, users[..n - 1], platformId);
      var u := users[n - 1];
      assert users == users[..n - 1] + [u];
      if u in prev.entries then Table(prev.order, prev.entries[u := prev.entries[u][platformId := ""]]) else prev
  }

  /** addPlatform with the six answers: an id that `config[platformId]`
      finds (an own key or an inherited name) is rejected and nothing is
      written; otherwise the record is stored, then every user
      gets an empty key for the new platform. */
  function AfterAddPlatform(f: Files, platformId: string, name: string, rtmpUrl: string, icon: string,
                            description: string, enabled: string): (r: Files)
    ensures IdTaken(f.config, platformId) ==> r == f
    ensures !IdTaken(f.config, platformId) ==>
      r.config.order == f.config.order + [platformId]
      && r.config.entries == f.config.entries[platformId := NewPlatform(name, rtmpUrl, icon, description, enabled)]
      && r.keys.order == f.keys.order
      && (forall u :: u in r.keys.entries <==> u in f.keys.entries)
      && (forall u | u in f.keys.order && u in f.keys.entries :: r.keys.entries[u] == f.keys.entries[u][platformId := ""])
    ensures FilesWF(f) ==> FilesWF(r)
    ensures FilesWF(f) && Complete(f) ==> Complete(r)
  {
    if IdTaken(f.config, platformId) then f
    else
      AddPlatformKeeps(f, platformId, NewPlatform(name, rtmpUrl, icon, description, enabled));
      Files(Insert(f.config, platformId, NewPlatform(name, rtmpUrl, icon, description, enabled)),
            BlankKeyForAll(f.keys, f.keys.order, platformId))
  }

  /** A new platform stored after blanking its key in every listed user keeps
      both properties. */
  lemma AddPlatformKeeps(f: Files, platformId: string, p: Platform)
    requires platformId !in f.config.entries
    ensures var r := Files(Insert(f.config, platformId, p), BlankKeyForAll(f.keys, f.keys.order, platformId));
      (FilesWF(f) ==> FilesWF(r)) && (FilesWF(f) && Complete(f) ==> Complete(r))
  {
    var r := Files(Insert(f.config, platformId, p), BlankKeyForAll(f.keys, f.keys.order, platformId));
    if FilesWF(f) {
      InsertKeepsWF(f.config, platformId, p);
      if Complete(f) {
        forall u, q | u in r.keys.entries && q in r.config.entries ensures q in r.keys.entries[u] {
          assert u in f.keys.order;
          if q != platformId {
            assert q in f.config.entries;
          }
        }
      }
    }
  }

  // ---------------------------------------------------------------------
  // Menu choices: parseInt(choice) - 1 and the range guard
  // ---------------------------------------------------------------------

  /** A JavaScript number as far as these menus use one. */
  datatype JsNumber = Num(value: int) | NaN

  function LeadingDigits(s: string): (d: string)
    ensures AllDigits(d) && StartsWith(s, d)
    ensures |d| == |s| || !IsDigit(s[|d|])
    decreases |s|
  {
    if s != [] && IsDigit(s[0]) then [s[0]] + LeadingDigits(s[1..]) else ""
  }

  predicate IsHexDigit(c: char) {
    IsDigit(c) || 'a' <= c <= 'f' || 'A' <= c <= 'F'
  }

  function HexDigitValue(c: char): (v: nat)
    requires IsHexDigit(c)
    ensures v < 16
  {
    if IsDigit(c) then DigitValue(c)
    else if 'a' <= c <= 'f' then (c as int - 'a' as int + 10) as nat
    else (c as int - 'A' as int + 10) as nat
  }

  function LeadingHexDigits(s: string): (d: string)
    ensures StartsWith(s, d) && forall i | 0 <= i < |d| :: IsHexDigit(d[i])
    decreases |s|
  {
    if s != [] && IsHexDigit(s[0]) then [s[0]] + LeadingHexDigits(s[1..]) else ""
  }

  function HexValue(s: string): nat
    requires forall i | 0 <= i < |s| :: IsHexDigit(s[i])
    decreases |s|
  {
    if s == [] then 0 else HexValue(s[..|s| - 1]) * 16 + HexDigitValue(s[|s| - 1])
  }

  function Signed(negative: bool, n: nat): int {
    if negative then -(n as int) else n
  }

  /** `parseInt(s)` with no radix: leading whitespace is skipped, one sign is
      read, a `0x` or `0X` prefix selects base 16, and the longest run of
      digits that follows is the value; no digit at all gives NaN. */
  function ParseInt(s: string): JsNumber {
    var t := TrimStart(s);
    var negative := t != [] && t[0] == '-';
    var u := if t != [] && (t[0] == '-' || t[0] == '+') then t[1..] else t;
    if |u| >= 2 && u[0] == '0' && (u[1] == 'x' || u[1] == 'X') then
      var h := LeadingHexDigits(u[2..]);
      if h == [] then NaN else Num(Signed(negative, HexValue(h)))
    else
      var d := LeadingDigits(u);
      if d == [] then NaN else Num(Signed(negative, DigitsValue(d)))
  }

  /** The number typed as its decimal digits is read back. */
  lemma ParseIntDecimal(n: nat)
    ensures ParseInt(NatToString(n)) == Num(n)
  {
    var s := NatToString(n);
    assert IsDigit(s[0]) && !IsJsWhitespace(s[0]);
    assert TrimStart(s) == s;
    assert |s| >= 2 ==> s[1] != 'x' && s[1] != 'X' by {
      if |s| >= 2 { assert IsDigit(s[1]); }
    }
    AllDigitsLead(s);
    NatToStringValue(n);
  }

  lemma {:induction false} AllDigitsLead(s: string)
    requires AllDigits(s)
    ensures LeadingDigits(s) == s
    decreases |s|
  {
    if s != [] {
      AllDigitsLead(s[1..]);
    }
  }

  /** An answer without a single decimal digit is NaN. */
  lemma NoDigitIsNaN(s: string)
    requires forall i | 0 <= i < |s| :: !IsDigit(s[i])
    ensures ParseInt(s) == NaN
  {
    TrimStartShape(s);
    var t := TrimStart(s);
    assert forall i | 0 <= i < |t| :: t[i] == s[|s| - |t| + i];
    var u := if t != [] && (t[0] == '-' || t[0] == '+') then t[1..] else t;
    assert u != [] ==> u[0] == s[|s| - |u|];
  }

  /** The outcome of choosing an entry of a numbered list. */
  datatype Pick =
    | NothingListed        // the list is empty: the menu returns before asking
    | Rejected             // "Invalid choice!"
    | Picked(index: nat)   // the 0-based entry chosen
    | PickedUndefined      // NaN passed the guard: the entry read is `undefined`

  /** `index = parseInt(choice) - 1; if (index < 0 || index >= n) reject`:
      both comparisons are false for NaN, so a non-numeric answer passes. */
  function PickAsWritten(n: nat, choice: string): (p: Pick)
    ensures n == 0 <==> p == NothingListed
    ensures p.Picked? <==> n > 0 && ParseInt(choice).Num? && 1 <= ParseInt(choice).value <= n
    ensures p.Picked? ==> p.index < n && p.index + 1 == ParseInt(choice).value
    ensures p == PickedUndefined <==> n > 0 && ParseInt(choice) == NaN
  {
    if n == 0 then NothingListed
    else
      match ParseInt(choice)
      case NaN => PickedUndefined
      case Num(k) => if k - 1 < 0 || k - 1 >= n then Rejected else Picked((k - 1) as nat)
  }

  /** The guard with NaN rejected too. */
  function PickChecked(n: nat, choice: string): (p: Pick)
    ensures p != PickedUndefined
    ensures p.Picked? <==> n > 0 && ParseInt(choice).Num? && 1 <= ParseInt(choice).value <= n
    ensures ParseInt(choice).Num? ==> p == PickAsWritten(n, choice)
  {
    var p := PickAsWritten(n, choice);
    if p == PickedUndefined then Rejected else p
  }

  /** A non-numeric answer to a non-empty menu passes the guard as written. */
  lemma LetterPassesGuard(n: nat)
    requires n > 0
    ensures PickAsWritten(n, "abc") == PickedUndefined
    ensures PickChecked(n, "abc") == Rejected
  {
    NoDigitIsNaN("abc");
  }

  // ---------------------------------------------------------------------
  // The two sub-menus
  // ---------------------------------------------------------------------

  datatype Menu = UsersMenu | PlatformsMenu

  /** The function a menu's `switch` calls for an answer, if any. */
  function MenuTarget(m: Menu, choice: string): Option<string> {
    match m
    case UsersMenu =>
      if choice == "1" then Some("addUser") else if choice == "2" then Some("editUser")
      else if choice == "3" then Some("deleteUser") else if choice == "4" then Some("listUsers")
      else if choice == "5" then Some("showMainMenu") else None
    case PlatformsMenu =>
      if choice == "1" then Some("addPlatform") else if choice == "2" then Some("editPlatform")
      else if choice == "3" then Some("togglePlatform") else if choice == "4" then Some("listPlatforms")
      else if choice == "5" then Some("showMainMenu") else None
  }

  /** The functions the script defines among those its menus call. */
  const Defined: set<string> :=
    {"addUser", "editUser", "listUsers", "showMainMenu", "addPlatform", "togglePlatform", "listPlatforms"}

  /** What an answer to a sub-menu leads to: a call of a defined function, a
      ReferenceError for a name the script never defines, or the menu again
      after "Invalid choice." */
  datatype Dispatch = Calls(name: string) | NotDefined(name: string) | Reprompt

  function Choose(m: Menu, choice: string): Dispatch {
    match MenuTarget(m, choice)
    case None => Reprompt
    case Some(name) => if name in Defined then Calls(name) else NotDefined(name)
  }

  /** Only the five numbered answers leave the menu, and exactly one entry of
      each menu, "Delete User" and "Edit Platform", calls a function that
      does not exist. */
  lemma UndefinedMenuEntries(m: Menu, choice: string)
    ensures Choose(m, choice) == Reprompt <==> choice !in ["1", "2", "3", "4", "5"]
    ensures Choose(m, choice).NotDefined? <==>
      (m == UsersMenu && choice == "3") || (m == PlatformsMenu && choice == "2")
    ensures m == UsersMenu && choice == "3" ==> Choose(m, choice) == NotDefined("deleteUser")
    ensures m == PlatformsMenu && choice == "2" ==> Choose(m, choice) == NotDefined("editPlatform")
  {
  }

  // ---------------------------------------------------------------------
  // togglePlatform and the user selection of editUser
  // ---------------------------------------------------------------------

  datatype Outcome =
    | NoEntries            // "No platforms found!" / "No users found!"
    | InvalidChoice        // "Invalid choice!"
    | Done(id: string)     // the entry acted on
    | Crashed              // a TypeError on `undefined` ends the process

  datatype Toggled = Toggled(outcome: Outcome, files: Files)

  /** Flip the `enabled` flag of one platform and save the configuration. */
  function Flip(f: Files, platformId: string): (r: Files)
    requires platformId in f.config.entries
    ensures r.keys == f.keys && r.config.order == f.config.order
    ensures r.config.entries.Keys == f.config.entries.Keys
    ensures r.config.entries[platformId].enabled == !f.config.entries[platformId].enabled
    ensures r.config.entries[platformId] == f.config.entries[platformId].(enabled := r.config.entries[platformId].enabled)
    ensures forall q | q in f.config.entries && q != platformId :: r.config.entries[q] == f.config.entries[q]
  {
    var p := f.config.entries[platformId];
    Files(Insert(f.config, platformId, p.(enabled := !p.enabled)), f.keys)
  }

  /** What a pick does to the configuration: a NaN pick reads
      `config[undefined]`, that is the key "undefined", and crashes when no
      platform has that id. */
  function ToggleWith(f: Files, pick: Pick): (r: Toggled)
    requires pick.Picked? ==> pick.index < |f.config.order|
    requires TableWF(f.config)
  {
    match pick
    case NothingListed => Toggled(NoEntries, f)
    case Rejected => Toggled(InvalidChoice, f)
    case Picked(i) =>
      assert f.config.order[i] in f.config.order;
      Toggled(Done(f.config.order[i]), Flip(f, f.config.order[i]))
    case PickedUndefined =>
      if "undefined" in f.config.entries then Toggled(Done("undefined"), Flip(f, "undefined"))
      else Toggled(Crashed, f)
  }

  /** togglePlatform as written. */
  function AfterToggle(f: Files, choice: string): (r: Toggled)
    requires TableWF(f.config)
    ensures r.files.keys == f.keys && r.files.config.order == f.config.order
    ensures r.files.config.entries.Keys == f.config.entries.Keys
    ensures ParseInt(choice) == NaN && f.config.order != [] && "undefined" !in f.config.entries ==> r.outcome == Crashed
    ensures r.outcome.Done? <==> r.files != f
    ensures r.outcome.Done? ==> r.outcome.id in f.config.entries
  {
    ToggleWith(f, PickAsWritten(|f.config.order|, choice))
  }

  /** togglePlatform with NaN rejected: only the numbered platform, when the
      number is in range, is flipped, and nothing crashes. */
  function AfterToggleChecked(f: Files, choice: string): (r: Toggled)
    requires TableWF(f.config)
    ensures r.outcome != Crashed
    ensures r.files.keys == f.keys && r.files.config.order == f.config.order
    ensures r.files.config.entries.Keys == f.config.entries.Keys
    ensures r.outcome.Done? <==> ParseInt(choice).Num? && 1 <= ParseInt(choice).value <= |f.config.order|
    ensures r.outcome.Done? ==>
      r.outcome.id == f.config.order[ParseInt(choice).value - 1]
      && r.files == Flip(f, r.outcome.id)
    ensures !r.outcome.Done? ==> r.files == f
  {
    ToggleWith(f, PickChecked(|f.config.order|, choice))
  }

  /** Toggling changes neither the users nor the set of platforms, so every
      user still has every platform. */
  lemma ToggleKeepsComplete(f: Files, choice: string)
    requires FilesWF(f) && Complete(f)
    ensures FilesWF(AfterToggle(f, choice).files) && Complete(AfterToggle(f, choice).files)
    ensures FilesWF(AfterToggleChecked(f, choice).files) && Complete(AfterToggleChecked(f, choice).files)
  {
  }

  /** Toggling the same number twice restores the configuration. */
  lemma ToggleTwiceRestores(f: Files, choice: string)
    requires TableWF(f.config)
    requires AfterToggleChecked(f, choice).outcome.Done?
    ensures AfterToggleChecked(AfterToggleChecked(f, choice).files, choice).files == f
  {
    var g := AfterToggleChecked(f, choice).files;
    var id := AfterToggleChecked(f, choice).outcome.id;
    assert TableWF(g.config) by {
      assert g.config == Insert(f.config, id, f.config.entries[id].(enabled := !f.config.entries[id].enabled));
    }
    var h := AfterToggleChecked(g, choice).files;
    assert h.config.entries == f.config.entries;
  }

  /** editUser's selection: a NaN pick calls editUserKeys(undefined), which
      reads `keys[undefined]`, the key "undefined". */
  function EditTarget(f: Files, pick: Pick): (r: Outcome)
    requires pick.Picked? ==> pick.index < |f.keys.order|
    requires TableWF(f.keys)
    ensures r.Done? ==> r.id in f.keys.entries
  {
    match pick
    case NothingListed => NoEntries
    case Rejected => InvalidChoice
    case Picked(i) =>
      assert f.keys.order[i] in f.keys.order;
      Done(f.keys.order[i])
    case PickedUndefined =>
      if "undefined" in f.keys.entries then Done("undefined") else Crashed
  }

  /** editUser as written crashes on a letter when no user is called
      "undefined"; with the corrected guard it picks an existing user or
      reports the choice invalid. */
  lemma EditUserNaN(f: Files, choice: string)
    requires TableWF(f.keys)
    ensures ParseInt(choice) == NaN && f.keys.order != [] && "undefined" !in f.keys.entries ==>
      EditTarget(f, PickAsWritten(|f.keys.order|, choice)) == Crashed
    ensures var r := EditTarget(f, PickChecked(|f.keys.order|, choice));
      r != Crashed && (r.Done? <==> ParseInt(choice).Num? && 1 <= ParseInt(choice).value <= |f.keys.order|)
  {
  }

  /** The object addUser builds: `name`, `email`, then `''` for every
      platform id in turn. */
  method BuildNewUser(userName: string, email: string, platforms: seq<string>) returns (newUser: User)
    ensures newUser == NewUser(userName, email, platforms)
  {
    newUser := map["name" := userName, "email" := email];
    for i := 0 to |platforms|
      invariant newUser == NewUser(userName, email, platforms[..i])
    {
      assert platforms[..i + 1][..i] == platforms[..i];
      newUser := newUser[platforms[i] := ""];
    }
    assert platforms[..|platforms|] == platforms;
  }

  /** editNextPlatform, one prompt after another: a non-blank answer is
      stored trimmed. */
  method AnswerPrompts(user: User, platforms: seq<string>, answers: seq<string>) returns (r: User)
    requires |answers| == |platforms|
    ensures r == ApplyAnswers(user, platforms, answers)
  {
    r := user;
    var currentIndex := 0;
    while currentIndex < |platforms|
      invariant 0 <= currentIndex <= |platforms|
      invariant r == ApplyAnswers(user, platforms[..currentIndex], answers[..currentIndex])
    {
      assert platforms[..currentIndex + 1][..currentIndex] == platforms[..currentIndex];
      assert answers[..currentIndex + 1][..currentIndex] == answers[..currentIndex];
      var newKey := answers[currentIndex];
      if Trim(newKey) != "" {
        r := r[platforms[currentIndex] := Trim(newKey)];
      }
      currentIndex := currentIndex + 1;
    }
    assert platforms[..|platforms|] == platforms && answers[..|answers|] == answers;
  }

  // ---------------------------------------------------------------------
  // The tool's state
  // ---------------------------------------------------------------------

  class ConfigTool {
    var config: Table<Platform>
    var keys: Table<User>
    /** Writes of platforms-config.json and user-stream-keys.json. */
    var configSaves: nat
    var keysSaves: nat

    function State(): Files
      reads this
    {
      Files(config, keys)
    }

    ghost predicate Valid()
      reads this
    {
      FilesWF(State())
    }

    ghost predicate EveryUserHasEveryPlatform()
      reads this
    {
      Complete(State())
    }

    constructor (initial: Files)
      requires FilesWF(initial)
      ensures Valid() && State() == initial && configSaves == 0 && keysSaves == 0
    {
      config, keys := initial.config, initial.keys;
      configSaves, keysSaves := 0, 0;
    }

    method AddUser(userId: string, userName: string, email: string) returns (added: bool)
      requires Valid()
      modifies this
      ensures Valid()
      ensures added <==> !IdTaken(old(keys), userId)
      ensures State() == AfterAddUser(old(State()), userId, userName, email)
      ensures configSaves == old(configSaves) && keysSaves == old(keysSaves) + (if added then 1 else 0)
      ensures old(EveryUserHasEveryPlatform()) ==> EveryUserHasEveryPlatform()
    {
      ghost var before := State();
      ghost var spec := AfterAddUser(before, userId, userName, email);
      if IdTaken(keys, userId) {
        return false;
      }
      var newUser := BuildNewUser(userName, email, config.order);
      keys := Insert(keys, userId, newUser);
      assert State() == spec;
      assert FilesWF(State());
      keysSaves := keysSaves + 1;
      added := true;
    }

    /** The prompts for one existing user, in platform order; one save at the end. */
    method EditUserKeys(userId: string, answers: seq<string>)
      requires Valid() && userId in keys.entries && |answers| == |config.order|
      modifies this
      ensures Valid()
      ensures State() == AfterEditUserKeys(old(State()), userId, answers)
      ensures configSaves == old(configSaves) && keysSaves == old(keysSaves) + 1
      ensures old(EveryUserHasEveryPlatform()) ==> EveryUserHasEveryPlatform()
    {
      ghost var before := State();
      ghost var spec := AfterEditUserKeys(before, userId, answers);
      var user := AnswerPrompts(keys.entries[userId], config.order, answers);
      keys := Insert(keys, userId, user);
      assert State() == spec;
      assert FilesWF(State());
      keysSaves := keysSaves + 1;
    }

    /** editUser: choose a user by number, then answer the key prompts. */
    method EditUser(choice: string, answers: seq<string>) returns (outcome: Outcome)
      requires Valid() && |answers| == |config.order|
      modifies this
      ensures Valid()
      ensures outcome == EditTarget(old(State()), PickAsWritten(|old(keys.order)|, choice))
      ensures outcome.Done? ==> State() == AfterEditUserKeys(old(State()), outcome.id, answers)
      ensures !outcome.Done? ==> State() == old(State())
      ensures old(EveryUserHasEveryPlatform()) ==> EveryUserHasEveryPlatform()
    {
      outcome := EditTarget(State(), PickAsWritten(|keys.order|, choice));
      if outcome.Done? {
        EditUserKeys(outcome.id, answers);
      }
    }

    method AddPlatform(platformId: string, name: string, rtmpUrl: string, icon: string,
                       description: string, enabled: string) returns (added: bool)
      requires Valid()
      modifies this
      ensures Valid()
      ensures added <==> !IdTaken(old(config), platformId)
      ensures State() == AfterAddPlatform(old(State()), platformId, name, rtmpUrl, icon, description, enabled)
      ensures configSaves == old(configSaves) + (if added then 1 else 0)
      ensures keysSaves == old(keysSaves) + (if added then 1 else 0)
      ensures old(EveryUserHasEveryPlatform()) ==> EveryUserHasEveryPlatform()
    {
      if IdTaken(config, platformId) {
        return false;
      }
      ghost var spec := AfterAddPlatform(State(), platformId, name, rtmpUrl, icon, description, enabled);
      config := Insert(config, platformId, NewPlatform(name, rtmpUrl, icon, description, enabled));
      configSaves := configSaves + 1;
      BlankKeyForEveryUser(platformId);
      assert State() == spec;
      assert FilesWF(State());
      keysSaves := keysSaves + 1;
      added := true;
    }

    /** `Object.keys(keys).forEach(userId => keys[userId][platformId] = '')` */
    method BlankKeyForEveryUser(platformId: string)
      modifies this
      ensures keys == BlankKeyForAll(old(keys), old(keys.order), platformId)
      ensures config == old(config) && configSaves == old(configSaves) && keysSaves == old(keysSaves)
    {
      var users := keys.order;
      ghost var before := keys;
      for i := 0 to |users|
        invariant keys == BlankKeyForAll(before, users[..i], platformId)
        invariant config == old(config) && configSaves == old(configSaves) && keysSaves == old(keysSaves)
      {
        assert users[..i + 1][..i] == users[..i];
        var userId := users[i];
        if userId in keys.entries {
          keys := Table(keys.order, keys.entries[userId := keys.entries[userId][platformId := ""]]);
        }
      }
      assert users[..|users|] == users;
    }

    /** togglePlatform as written: a non-numeric choice reaches `config[undefined]`. */
    method TogglePlatform(choice: string) returns (outcome: Outcome)
      requires Valid()
      modifies this
      ensures Valid()
      ensures Toggled(outcome, State()) == AfterToggle(old(State()), choice)
      ensures keysSaves == old(keysSaves) && configSaves == old(configSaves) + (if outcome.Done? then 1 else 0)
      ensures old(EveryUserHasEveryPlatform()) ==> EveryUserHasEveryPlatform()
    {
      var platforms := config.order;
      var pick := PickAsWritten(|platforms|, choice);
      outcome := ToggleWith(State(), pick).outcome;
      if outcome.Done? {
        assert outcome.id in config.entries;
        var p := config.entries[outcome.id];
        config := Insert(config, outcome.id, p.(enabled := !p.enabled));
        configSaves := configSaves + 1;
      }
    }

    /** togglePlatform with the NaN choice rejected. */
    method TogglePlatformChecked(choice: string) returns (outcome: Outcome)
      requires Valid()
      modifies this
      ensures Valid()
      ensures Toggled(outcome, State()) == AfterToggleChecked(old(State()), choice)
      ensures keysSaves == old(keysSaves) && configSaves == old(configSaves) + (if outcome.Done? then 1 else 0)
      ensures old(EveryUserHasEveryPlatform()) ==> EveryUserHasEveryPlatform()
    {
      var platforms := config.order;
      var pick := PickChecked(|platforms|, choice);
      outcome := ToggleWith(State(), pick).outcome;
      if outcome.Done? {
        assert outcome.id in config.entries;
        var p := config.entries[outcome.id];
        config := Insert(config, outcome.id, p.(enabled := !p.enabled));
        configSaves := configSaves + 1;
      }
    }
  }

  /** With no platform called "undefined", typing a letter at the toggle
      prompt crashes the tool. */
  method LetterCrashesToggle() returns (t: ConfigTool, outcome: Outcome)
    ensures outcome == Crashed
  {
    t := new ConfigTool(NoFiles());
    var added := t.AddPlatform("youtube", "YouTube", "rtmp://a.rtmp.youtube.com/live2", "", "", "y");
    NoDigitIsNaN("abc");
    outcome := t.TogglePlatform("abc");
  }
}
