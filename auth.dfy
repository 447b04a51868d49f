/** Sign-in for the Streamlit app (auth.py): e-mail normalisation, the case-insensitive
    lookup of the user record, the password decision, and the session keys that login sets
    and logout removes. Reading `users.json` is outside the model: its entries, in file
    order, are an input. Form rendering and `st.rerun` are not modelled. */
module Auth {
  import opened Wrappers
  import opened Text
  import opened Session

  /** A `users.json` record. */
  datatype UserRecord = UserRecord(password: string, allowedTabs: seq<string>)

  // ------------------------------------------------------------ e-mail normalisation

  /** `normalize_email`: surrounding whitespace removed, then lower-cased. */
  function NormalizeEmail(email: string): (r: string)
    ensures r == [] || (!IsSpace(r[0]) && !IsSpace(r[|r| - 1]))
    ensures forall i :: 0 <= i < |r| ==> !('A' <= r[i] <= 'Z')
  {
    var s := Strip(email);
    LowerKeepsTrimmed(s);
    Lower(s)
  }

  /** The normal form is the typed address with only its surrounding whitespace cut off,
      then lower-cased. */
  lemma NormalizeEmailIsLoweredWindow(email: string)
    ensures exists a, b ::
      0 <= a <= b <= |email| && Window(email, email[a..b], a, b) && NormalizeEmail(email) == Lower(email[a..b])
  {
    var a, b :| Window(email, Strip(email), a, b);
    assert Window(email, email[a..b], a, b);
  }

  lemma LowerKeepsTrimmed(s: string)
    requires s == [] || (!IsSpace(s[0]) && !IsSpace(s[|s| - 1]))
    ensures var r := Lower(s); r == [] || (!IsSpace(r[0]) && !IsSpace(r[|r| - 1]))
  {
    var r := Lower(s);
    assert r != [] ==> r[0] == LowerChar(s[0]) && r[|r| - 1] == LowerChar(s[|s| - 1]);
  }

  lemma LowerIdempotent(s: string)
    ensures Lower(Lower(s)) == Lower(s)
  {
    assert forall i :: 0 <= i < |s| ==> Lower(Lower(s))[i] == Lower(s)[i];
  }

  /** A string without surrounding whitespace is its own `strip()`. */
  lemma StripTrimmed(s: string)
    requires s == [] || (!IsSpace(s[0]) && !IsSpace(s[|s| - 1]))
    ensures Strip(s) == s
  {
    assert StripLeft(s) == s;
    assert StripRight(s) == s;
  }

  /** Normalising an already normalised address changes nothing. */
  lemma NormalizeEmailIdempotent(email: string)
    ensures NormalizeEmail(NormalizeEmail(email)) == NormalizeEmail(email)
  {
    var n := NormalizeEmail(email);
    StripTrimmed(n);
    LowerIdempotent(Strip(email));
  }

  lemma {:induction false} StripLeftLower(s: string)
    ensures StripLeft(Lower(s)) == Lower(StripLeft(s))
  {
    if s != [] {
      assert Lower(s)[1..] == Lower(s[1..]);
      if IsSpace(s[0]) {
        StripLeftLower(s[1..]);
      }
    }
  }

  lemma {:induction false} StripRightLower(s: string)
    ensures StripRight(Lower(s)) == Lower(StripRight(s))
  {
    if s != [] {
      var init := s[..|s| - 1];
      assert Lower(s)[..|s| - 1] == Lower(init);
      if IsSpace(s[|s| - 1]) {
        StripRightLower(init);
      }
    }
  }

  /** Lower-casing the typed address first makes no difference. */
  lemma NormalizeEmailIgnoresCase(email: string)
    ensures NormalizeEmail(Lower(email)) == NormalizeEmail(email)
  {
    StripLeftLower(email);
    StripRightLower(StripLeft(email));
    LowerIdempotent(Strip(email));
  }

  /** Any whitespace typed before or after the address makes no difference. */
  lemma NormalizeEmailIgnoresSpaces(pre: string, email: string, post: string)
    requires forall i :: 0 <= i < |pre| ==> IsSpace(pre[i])
    requires forall i :: 0 <= i < |post| ==> IsSpace(post[i])
    ensures NormalizeEmail(pre + email + post) == NormalizeEmail(email)
  {
    StripPadded(pre, email, post);
  }

  lemma StripPadded(pre: string, email: string, post: string)
    requires forall i :: 0 <= i < |pre| ==> IsSpace(pre[i])
    requires forall i :: 0 <= i < |post| ==> IsSpace(post[i])
    ensures Strip(pre + email + post) == Strip(email)
  {
    var r := Strip(email);
    var a, b :| Window(email, r, a, b);
    PaddedStrip(pre, email, post, r, a, b);
  }

  lemma PaddedStrip(pre: string, email: string, post: string, r: string, a: int, b: int)
    requires forall i :: 0 <= i < |pre| ==> IsSpace(pre[i])
    requires forall i :: 0 <= i < |post| ==> IsSpace(post[i])
    requires Window(email, r, a, b)
    requires r == [] || (!IsSpace(r[0]) && !IsSpace(r[|r| - 1]))
    ensures Strip(pre + email + post) == r
  {
    PaddedWindow(pre, email, post, r, a, b);
    StripUnique(pre + email + post, r, |pre| + a, |pre| + b);
  }

  /** Whitespace added around `email` widens the whitespace outside its window. */
  lemma PaddedWindow(pre: string, email: string, post: string, r: string, a: int, b: int)
    requires forall i :: 0 <= i < |pre| ==> IsSpace(pre[i])
    requires forall i :: 0 <= i < |post| ==> IsSpace(post[i])
    requires Window(email, r, a, b)
    ensures Window(pre + email + post, r, |pre| + a, |pre| + b)
  {
    var s := pre + email + post;
    var n := |pre|;
    assert r == s[n + a..n + b];
    forall i | 0 <= i < n + a ensures IsSpace(s[i]) {
      if i < n { assert s[i] == pre[i]; } else { assert s[i] == email[i - n]; }
    }
    forall i | n + b <= i < |s| ensures IsSpace(s[i]) {
      if i < n + |email| { assert s[i] == email[i - n]; } else { assert s[i] == post[i - n - |email|]; }
    }
  }

  // ------------------------------------------------------------ user lookup

  /** `{k.lower(): v for k, v in users.items()}`: when two stored addresses differ only in
      case, the later record wins. */
  function LoweredUsers(users: seq<(string, UserRecord)>): (r: map<string, UserRecord>)
    ensures forall k :: k in r <==> exists i :: 0 <= i < |users| && Lower(users[i].0) == k
    ensures forall k, i :: LastMatch(users, k, i) ==> k in r && r[k] == users[i].1
  {
    if users == [] then map[]
    else
      var n := |users| - 1;
      var r := LoweredUsers(users[..n]);
      assert forall i :: 0 <= i < n ==> users[..n][i] == users[i];
      forall k, i | LastMatch(users, k, i) && i < n
        ensures LastMatch(users[..n], k, i) && Lower(users[n].0) != k
      {
        LastMatchPrefix(users, k, i);
      }
      r[Lower(users[n].0) := users[n].1]
  }

  lemma LastMatchPrefix(users: seq<(string, UserRecord)>, key: string, i: int)
    requires LastMatch(users, key, i) && i < |users| - 1
    ensures LastMatch(users[..|users| - 1], key, i) && Lower(users[|users| - 1].0) != key
  {
  }

  /** Entry `i` is the last one whose lower-cased address is `key`. */
  ghost predicate LastMatch(users: seq<(string, UserRecord)>, key: string, i: int) {
    && 0 <= i < |users|
    && Lower(users[i].0) == key
    && forall j :: i < j < |users| ==> Lower(users[j].0) != key
  }

  lemma LastMatchExists(users: seq<(string, UserRecord)>, key: string, i: int)
    requires 0 <= i < |users| && Lower(users[i].0) == key
    ensures exists m :: i <= m && LastMatch(users, key, m)
    decreases |users| - i
  {
    if !LastMatch(users, key, i) {
      var j :| i < j < |users| && Lower(users[j].0) == key;
      LastMatchExists(users, key, j);
    }
  }

  /** The credential decision of `login` after submission: the record of the last stored
      address equal to the typed one, ignoring case and surrounding whitespace, when its
      password matches; otherwise the message shown. */
  function Authenticate(users: seq<(string, UserRecord)>, email: string, password: string)
    : (r: Result<UserRecord, string>)
    ensures forall i :: LastMatch(users, NormalizeEmail(email), i) ==>
      r == if users[i].1.password == password then Ok(users[i].1) else Err("Incorrect password.")
    ensures r == Err("Email not found.") <==>
      forall i :: 0 <= i < |users| ==> Lower(users[i].0) != NormalizeEmail(email)
  {
    var key := NormalizeEmail(email);
    var table := LoweredUsers(users);
    if key in table then
      var i :| 0 <= i < |users| && Lower(users[i].0) == key;
      LastMatchExists(users, key, i);
      if table[key].password == password then Ok(table[key]) else Err("Incorrect password.")
    else Err("Email not found.")
  }

  /** Typing the address in another case, or with spaces around it, signs in the same way. */
  lemma AuthenticateIgnoresCaseAndSpaces(users: seq<(string, UserRecord)>, email: string, password: string,
                                         pre: string, post: string)
    requires forall i :: 0 <= i < |pre| ==> IsSpace(pre[i])
    requires forall i :: 0 <= i < |post| ==> IsSpace(post[i])
    ensures Authenticate(users, Lower(email), password) == Authenticate(users, email, password)
    ensures Authenticate(users, pre + email + post, password) == Authenticate(users, email, password)
  {
    NormalizeEmailIgnoresCase(email);
    NormalizeEmailIgnoresSpaces(pre, email, post);
    SameKeySameOutcome(users, Lower(email), email, password);
    SameKeySameOutcome(users, pre + email + post, email, password);
  }

  /** The decision depends on the typed address only through its normal form. */
  lemma SameKeySameOutcome(users: seq<(string, UserRecord)>, e1: string, e2: string, password: string)
    requires NormalizeEmail(e1) == NormalizeEmail(e2)
    ensures Authenticate(users, e1, password) == Authenticate(users, e2, password)
  {
  }

  // ------------------------------------------------------------ session keys

  const AuthenticatedKey: string := "authenticated"
  const UsernameKey: string := "username"
  const AllowedTabsKey: string := "allowed_tabs"

  /** The keys `logout` removes, in its order. */
  const AuthKeys: seq<string> := [AuthenticatedKey, UsernameKey, AllowedTabsKey]

  /** The session after a successful login: signed in, under the address as typed, with the
      record's tabs. */
  function SignedIn(store: map<string, Value>, email: string, user: UserRecord): (r: map<string, Value>)
    ensures AuthenticatedKey in r && r[AuthenticatedKey] == FlagValue(true)
    ensures UsernameKey in r && r[UsernameKey] == TextValue(email)
    ensures AllowedTabsKey in r && r[AllowedTabsKey] == ListValue(user.allowedTabs)
    ensures forall k :: k !in AuthKeys ==> (k in r <==> k in store) && (k in r ==> r[k] == store[k])
  {
    store[AuthenticatedKey := FlagValue(true)][UsernameKey := TextValue(email)][AllowedTabsKey := ListValue(user.allowedTabs)]
  }

  /** `login` once the form is submitted (nothing happens before): returns the error shown,
      if any. */
  method Login(session: SessionState, users: seq<(string, UserRecord)>, submitted: bool, email: string, password: string)
    returns (error: Option<string>)
    modifies session
    ensures !submitted ==> error.None? && session.store == old(session.store)
    ensures submitted ==>
      var r := Authenticate(users, email, password);
      && (r.Ok? ==> error.None? && session.store == SignedIn(old(session.store), email, r.value))
      && (r.Err? ==> error == Some(r.error) && session.store == old(session.store))
  {
    error := None;
    if submitted {
      var r := Authenticate(users, email, password);
      if r.Ok? {
        session.store := SignedIn(session.store, email, r.value);
      } else {
        error := Some(r.error);
      }
    }
  }

  /** The session after logout: the three sign-in keys are gone, whether they were there
      or not, and every other key is untouched. */
  function SignedOut(store: map<string, Value>): (r: map<string, Value>)
    ensures forall k :: k in AuthKeys ==> k !in r
    ensures forall k :: k !in AuthKeys ==> (k in r <==> k in store) && (k in r ==> r[k] == store[k])
  {
    store - {AuthenticatedKey, UsernameKey, AllowedTabsKey}
  }

  /** Logging out after logging in leaves the session as it was apart from the sign-in keys. */
  lemma SignOutUndoesSignIn(store: map<string, Value>, email: string, user: UserRecord)
    ensures SignedOut(SignedIn(store, email, user)) == SignedOut(store)
    ensures SignedOut(SignedOut(store)) == SignedOut(store)
  {
    var a := SignedOut(SignedIn(store, email, user));
    var b := SignedOut(store);
    assert forall k :: k in a <==> k in b;
    assert SignedOut(b).Keys == b.Keys;
  }

  /** `logout`: when the button is clicked, `pop(key, None)` for each sign-in key. */
  method Logout(session: SessionState, clicked: bool)
    modifies session
    ensures clicked ==> session.store == SignedOut(old(session.store))
    ensures !clicked ==> session.store == old(session.store)
  {
    if clicked {
      for i := 0 to |AuthKeys|
        invariant session.store == map k | k in old(session.store) && k !in AuthKeys[..i] :: old(session.store)[k]
      {
        session.store := session.store - {AuthKeys[i]};
        assert AuthKeys[..i + 1] == AuthKeys[..i] + [AuthKeys[i]];
      }
      assert AuthKeys[..|AuthKeys|] == AuthKeys;
    }
  }
}
