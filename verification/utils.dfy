/**
 * The shared helpers of the web pages: the first-match language sniffer shown next to an upload,
 * and banning or unbanning a user in the stored user list.
 *
 * The user list lives in the browser's storage as JSON; here it is the field of a `UserStore`
 * object, read and written in place.
 */
module Utils {
  import opened Text

  // ---------------------------------------------------------------- detectLanguage

  /** The label-deciding substrings, in the order they are tried, with the label each one gives. */
  const Signatures: seq<(string, string)> := [
    ("#include", "C++"),
    ("using namespace", "C++"),
    ("def ", "Python"),
    ("print(", "Python"),
    ("console.log", "JavaScript"),
    ("let ", "JavaScript"),
    ("public static void main", "Java")]

  /** The label of the first signature in `sigs` that `code` contains; "Unknown" when none is. */
  function FirstMatch(code: string, sigs: seq<(string, string)>): string {
    if sigs == [] then "Unknown"
    else if Contains(code, sigs[0].0) then sigs[0].1
    else FirstMatch(code, sigs[1..])
  }

  predicate IsCpp(code: string) { Contains(code, "#include") || Contains(code, "using namespace") }
  predicate IsPython(code: string) { Contains(code, "def ") || Contains(code, "print(") }
  predicate IsJavaScript(code: string) { Contains(code, "console.log") || Contains(code, "let ") }
  predicate IsJava(code: string) { Contains(code, "public static void main") }

  /**
   * `detectLanguage`: one of five labels; each label is given exactly when its own signature is
   * present and no earlier one is, so the first match wins.
   */
  function DetectLanguage(code: string): (lang: string)
    ensures lang in ["C++", "Python", "JavaScript", "Java", "Unknown"]
    ensures code == "" ==> lang == "Unknown"
    ensures lang == "C++" <==> code != "" && IsCpp(code)
    ensures lang == "Python" <==> code != "" && !IsCpp(code) && IsPython(code)
    ensures lang == "JavaScript" <==> code != "" && !IsCpp(code) && !IsPython(code) && IsJavaScript(code)
    ensures lang == "Java" <==> code != "" && !IsCpp(code) && !IsPython(code) && !IsJavaScript(code) && IsJava(code)
  {
    if code == "" then "Unknown"
    else if Contains(code, "#include") then "C++"
    else if Contains(code, "using namespace") then "C++"
    else if Contains(code, "def ") || Contains(code, "print(") then "Python"
    else if Contains(code, "console.log") || Contains(code, "let ") then "JavaScript"
    else if Contains(code, "public static void main") then "Java"
    else "Unknown"
  }

  /** The empty text contains no non-empty signature. */
  lemma EmptyHasNoSignature(w: string)
    requires w != ""
    ensures !Contains("", w)
  {
  }

  /** The sniffer agrees with trying the signature table in order. */
  lemma DetectLanguageMatchesTable(code: string)
    ensures DetectLanguage(code) == FirstMatch(code, Signatures)
  {
    var t1 := Signatures[1..];
    var t2 := t1[1..];
    var t3 := t2[1..];
    var t4 := t3[1..];
    var t5 := t4[1..];
    var t6 := t5[1..];
    assert Signatures[0] == ("#include", "C++") && t1[0] == ("using namespace", "C++");
    assert t2[0] == ("def ", "Python") && t3[0] == ("print(", "Python");
    assert t4[0] == ("console.log", "JavaScript") && t5[0] == ("let ", "JavaScript");
    assert t6 == [("public static void main", "Java")] && t6[1..] == [];
    assert FirstMatch(code, t6) == if Contains(code, "public static void main") then "Java" else "Unknown";
    assert FirstMatch(code, t5) == if Contains(code, "let ") then "JavaScript" else FirstMatch(code, t6);
    assert FirstMatch(code, t4) == if Contains(code, "console.log") then "JavaScript" else FirstMatch(code, t5);
    assert FirstMatch(code, t3) == if Contains(code, "print(") then "Python" else FirstMatch(code, t4);
    assert FirstMatch(code, t2) == if Contains(code, "def ") then "Python" else FirstMatch(code, t3);
    assert FirstMatch(code, t1) == if Contains(code, "using namespace") then "C++" else FirstMatch(code, t2);
    assert FirstMatch(code, Signatures) == if Contains(code, "#include") then "C++" else FirstMatch(code, t1);
    if code == "" {
      EmptyHasNoSignature("#include");
      EmptyHasNoSignature("using namespace");
      EmptyHasNoSignature("def ");
      EmptyHasNoSignature("print(");
      EmptyHasNoSignature("console.log");
      EmptyHasNoSignature("let ");
      EmptyHasNoSignature("public static void main");
    }
  }

  // ---------------------------------------------------------------- users

  datatype User = User(email: string, password: string, role: string, banned: bool)

  /** Index of the first user with this email at or after `from`, as `users.find` looks it up. */
  function FindFrom(users: seq<User>, email: string, from: nat): (r: Option<nat>)
    ensures r.Some? ==> from <= r.value < |users| && users[r.value].email == email
    ensures r.Some? ==> forall k :: from <= k < r.value ==> users[k].email != email
    ensures r.None? ==> forall k :: from <= k < |users| ==> users[k].email != email
    decreases |users| - from
  {
    if from >= |users| then None
    else if users[from].email == email then Some(from)
    else FindFrom(users, email, from + 1)
  }

  /** `isUserBanned`: the flag of the first user with this email; false when there is none. */
  function IsUserBanned(users: seq<User>, email: string): (b: bool)
    ensures (forall k :: 0 <= k < |users| ==> users[k].email != email) ==> !b
    ensures b <==> exists i :: 0 <= i < |users| && users[i].email == email && users[i].banned &&
                              forall k :: 0 <= k < i ==> users[k].email != email
  {
    var r := FindFrom(users, email, 0);
    if r.Some? then users[r.value].banned else false
  }

  predicate HasUser(users: seq<User>, email: string) {
    exists k :: 0 <= k < |users| && users[k].email == email
  }

  /** The user list after `forEach(u => { if (u.email === email) u.banned = flag; })`. */
  function WithBanned(users: seq<User>, email: string, flag: bool): (r: seq<User>)
    ensures |r| == |users|
    ensures forall k :: 0 <= k < |users| && users[k].email == email ==> r[k] == users[k].(banned := flag)
    ensures forall k :: 0 <= k < |users| && users[k].email != email ==> r[k] == users[k]
  {
    seq(|users|, k requires 0 <= k < |users| => if users[k].email == email then users[k].(banned := flag) else users[k])
  }

  /** After a ban, the email is banned exactly when some user has it. */
  lemma BanMakesBanned(users: seq<User>, email: string)
    ensures IsUserBanned(WithBanned(users, email, true), email) <==> HasUser(users, email)
  {
    var r := WithBanned(users, email, true);
    if HasUser(users, email) {
      var j := FindFrom(r, email, 0);
      assert j.Some? by {
        var k :| 0 <= k < |users| && users[k].email == email;
        assert r[k].email == email;
      }
      assert r[j.value].banned;
    }
  }

  /** After an unban, the email is not banned. */
  lemma UnbanMakesUnbanned(users: seq<User>, email: string)
    ensures !IsUserBanned(WithBanned(users, email, false), email)
  {
    var r := WithBanned(users, email, false);
    var j := FindFrom(r, email, 0);
    if j.Some? {
      assert !r[j.value].banned;
    }
  }

  /** Lookups by email agree on two lists that hold the same emails in the same places. */
  lemma {:induction false} FindSameEmails(a: seq<User>, b: seq<User>, email: string, from: nat)
    requires |a| == |b|
    requires forall k :: 0 <= k < |a| ==> a[k].email == b[k].email
    ensures FindFrom(a, email, from) == FindFrom(b, email, from)
    decreases |a| - from
  {
    if from < |a| {
      FindSameEmails(a, b, email, from + 1);
    }
  }

  /** Banning or unbanning one email leaves every other email's status as it was. */
  lemma OtherUsersUnaffected(users: seq<User>, email: string, flag: bool, other: string)
    requires other != email
    ensures IsUserBanned(WithBanned(users, email, flag), other) == IsUserBanned(users, other)
  {
    var r := WithBanned(users, email, flag);
    FindSameEmails(r, users, other, 0);
  }

  /** Only the last of two flag updates of the same email matters. */
  lemma LastUpdateWins(users: seq<User>, email: string, first: bool, second: bool)
    ensures WithBanned(WithBanned(users, email, first), email, second) == WithBanned(users, email, second)
  {
  }

  /** The stored user list, updated in place by the ban operations. */
  class UserStore {
    var users: seq<User>

    constructor (initial: seq<User>)
      ensures users == initial
    {
      users := initial;
    }

    /** `banUser`: every user with this email gets `banned = true`; nothing else changes. */
    method BanUser(email: string)
      modifies this
      ensures users == WithBanned(old(users), email, true)
      ensures IsUserBanned(users, email) <==> HasUser(old(users), email)
    {
      SetBanned(email, true);
      BanMakesBanned(old(users), email);
    }

    /** `unbanUser`: every user with this email gets `banned = false`; nothing else changes. */
    method UnbanUser(email: string)
      modifies this
      ensures users == WithBanned(old(users), email, false)
      ensures !IsUserBanned(users, email)
    {
      SetBanned(email, false);
      UnbanMakesUnbanned(old(users), email);
    }

    /** The `forEach` loop shared by both operations. */
    method SetBanned(email: string, flag: bool)
      modifies this
      ensures users == WithBanned(old(users), email, flag)
    {
      var k := 0;
      while k < |users|
        invariant 0 <= k <= |users| == |old(users)|
        invariant forall j :: 0 <= j < k ==> users[j] == WithBanned(old(users), email, flag)[j]
        invariant forall j :: k <= j < |users| ==> users[j] == old(users)[j]
      {
        if users[k].email == email {
          users := users[k := users[k].(banned := flag)];
        }
        k := k + 1;
      }
    }

    /** `isUserBanned` on the stored list. */
    function Banned(email: string): (b: bool)
      reads this
      ensures !HasUser(users, email) ==> !b
    {
      IsUserBanned(users, email)
    }
  }
}
