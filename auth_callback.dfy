/** The OAuth redirect target of `src/pages/AuthCallback/AuthCallback.jsx`:
    a parser for the URL fragment the identity provider appends, and the
    handler that turns the stored `googleAuthAction` and the backend's answer
    into storage writes, session flags and a navigation. */
module AuthCallback {
  import opened Js
  import opened Json
  import opened BrowserStorage
  import opened AuthContext

  const GoogleAuthActionKey := "googleAuthAction"
  const GoogleSignupInProgressKey := "googleSignupInProgress"
  const GoogleAccessTokenKey := "googleAccessToken"
  const GoogleUserDataKey := "googleUserData"
  const NoAccessTokenMessage := "Authentication failed: No access token received"
  const FailedMessage := "Authentication failed"
  /** What the engine reports when a missing context setter is called. */
  const MissingSetterMessage := "setCurrentUser is not a function"

  // ---------------------------------------------------------------------
  // The fragment parser (a split and a reduce)
  // ---------------------------------------------------------------------

  /** `s.split(sep)`: the pieces between the separators, empty pieces kept. */
  function Split(s: string, sep: char): (parts: seq<string>)
    ensures |parts| >= 1
    ensures forall i :: 0 <= i < |parts| ==> sep !in parts[i]
    decreases |s|
  {
    var i := IndexOf(s, sep);
    if i < 0 then [s] else [s[..i]] + Split(s[i + 1..], sep)
  }

  /** `parts.join(sep)`. */
  function Join(parts: seq<string>, sep: char): string
    requires |parts| >= 1
  {
    if |parts| == 1 then parts[0] else parts[0] + [sep] + Join(parts[1..], sep)
  }

  /** `join` over a first piece and at least one more. */
  lemma JoinCons(head: string, rest: seq<string>, sep: char)
    requires |rest| >= 1
    ensures Join([head] + rest, sep) == head + [sep] + Join(rest, sep)
  {
    var parts := [head] + rest;
    assert parts[0] == head && parts[1..] == rest;
  }

  /** Joining the pieces again gives back the split string. */
  lemma {:induction false} SplitJoin(s: string, sep: char)
    ensures Join(Split(s, sep), sep) == s
    decreases |s|
  {
    var i := IndexOf(s, sep);
    if i >= 0 {
      var rest := Split(s[i + 1..], sep);
      JoinCons(s[..i], rest, sep);
      SplitJoin(s[i + 1..], sep);
      Around(s, i);
      calc {
        Join(Split(s, sep), sep);
        Join([s[..i]] + rest, sep);
        s[..i] + [sep] + Join(rest, sep);
        s[..i] + [s[i]] + s[i + 1..];
        s;
      }
    }
  }

  /** A string is its prefix, one character and its suffix. */
  lemma Around(s: string, i: int)
    requires 0 <= i < |s|
    ensures s == s[..i] + [s[i]] + s[i + 1..]
  {
  }

  /** `const [key, value] = pair.split('=')`: the text before the first `=`. */
  function PairKey(pair: string): (r: string)
    ensures r <= pair && '=' !in r
    ensures '=' !in pair ==> r == pair
  {
    SplitHead(pair, '=');
    Split(pair, '=')[0]
  }

  /** `value || ''`: the text between the first and the second `=`, or the
      empty string when there is no `=`. */
  function PairValue(pair: string): (r: string)
    ensures '=' !in r
    ensures '=' !in pair ==> r == ""
    ensures '=' in pair ==> PairKey(pair) + "=" + r <= pair
  {
    var parts := Split(pair, '=');
    SplitHead(pair, '=');
    if |parts| >= 2 then SecondPiece(pair, '='); parts[1] else ""
  }

  /** The second piece of a split follows the first and one separator. */
  lemma SecondPiece(s: string, sep: char)
    requires |Split(s, sep)| >= 2
    ensures sep in s
    ensures Split(s, sep)[0] + [sep] + Split(s, sep)[1] <= s
  {
    var i := IndexOf(s, sep);
    assert i >= 0;
    var rest := s[i + 1..];
    SplitTail(s, sep);
    SplitHead(s, sep);
    SplitHead(rest, sep);
    var head := Split(rest, sep)[0];
    assert Split(s, sep)[1] == head;
    Around(s, i);
    PrefixAfter(s[..i], sep, head, rest);
  }

  /** Extending two texts by the same front keeps one a prefix of the other. */
  lemma PrefixAfter(a: string, c: char, b: string, t: string)
    requires b <= t
    ensures a + [c] + b <= a + [c] + t
  {
    assert (a + [c] + t)[..|a| + 1 + |b|] == a + [c] + b;
  }

  /** The first piece of a split is the text before the first separator, or
      the whole text when it holds none. */
  lemma SplitHead(s: string, sep: char)
    ensures Split(s, sep)[0] <= s
    ensures sep !in s ==> Split(s, sep) == [s]
    ensures sep in s ==> Split(s, sep)[0] == s[..IndexOf(s, sep)]
  {
  }

  /** After the first separator come the pieces of the rest. */
  lemma SplitTail(s: string, sep: char)
    requires sep in s
    ensures |Split(s, sep)| >= 2 && Split(s, sep)[1..] == Split(s[IndexOf(s, sep) + 1..], sep)
  {
    var i := IndexOf(s, sep);
    assert ([s[..i]] + Split(s[i + 1..], sep))[1..] == Split(s[i + 1..], sep);
  }

  /** What `decodeURIComponent` made of a text: the decoded text, or the
      message of the `URIError` it threw. */
  datatype Decoded = Decoded(text: string) | UriError(message: string)

  /** The parsed fragment, or the message of the error that stopped it. */
  datatype FragmentResult = Params(params: map<string, string>) | DecodeFailed(message: string)

  /** The `reduce` over the pieces: empty pieces are skipped and each other
      piece binds its key to its decoded value, later pieces overwriting. */
  function Reduce(params: map<string, string>, pairs: seq<string>, decode: string -> Decoded): (r: FragmentResult)
    ensures r.Params? ==> params.Keys <= r.params.Keys
    decreases |pairs|
  {
    if pairs == [] then Params(params)
    else if pairs[0] == "" then Reduce(params, pairs[1..], decode)
    else match decode(PairValue(pairs[0]))
      case UriError(m) => DecodeFailed(m)
      case Decoded(v) => Reduce(params[PairKey(pairs[0]) := v], pairs[1..], decode)
  }

  /** `hash.substring(1)`: the fragment without its leading `#`. */
  function DropFirst(hash: string): (r: string)
    ensures |hash| >= 1 ==> r == hash[1..]
    ensures |hash| == 0 ==> r == ""
  {
    if |hash| >= 1 then hash[1..] else ""
  }

  /** The parameters of `window.location.hash`. */
  function ParseFragment(hash: string, decode: string -> Decoded): (r: FragmentResult)
    ensures r.Params? <==> AllDecode(Split(DropFirst(hash), '&'), decode)
  {
    ReduceFailsExactlyOnBadValue(map[], Split(DropFirst(hash), '&'), decode);
    Reduce(map[], Split(DropFirst(hash), '&'), decode)
  }

  /** A piece that contributes a binding for key `k`. */
  predicate BindsKey(pair: string, k: string) {
    pair != "" && PairKey(pair) == k
  }

  /** The index of the last piece that binds `k`, or -1. */
  function LastBinding(pairs: seq<string>, k: string): (r: int)
    ensures -1 <= r < |pairs|
    ensures r >= 0 ==> BindsKey(pairs[r], k) && forall j :: r < j < |pairs| ==> !BindsKey(pairs[j], k)
    ensures r == -1 ==> forall j :: 0 <= j < |pairs| ==> !BindsKey(pairs[j], k)
    decreases |pairs|
  {
    if pairs == [] then -1
    else
      var r := LastBinding(pairs[1..], k);
      if r >= 0 then r + 1 else if BindsKey(pairs[0], k) then 0 else -1
  }

  /** Every non-empty piece's value decodes. */
  predicate AllDecode(pairs: seq<string>, decode: string -> Decoded) {
    forall i :: 0 <= i < |pairs| && pairs[i] != "" ==> decode(PairValue(pairs[i])).Decoded?
  }

  /** When every value decodes the reduce succeeds; when some value does not,
      the reduce reports the first such value's error. */
  lemma {:induction false} ReduceFailsExactlyOnBadValue(params: map<string, string>, pairs: seq<string>, decode: string -> Decoded)
    ensures Reduce(params, pairs, decode).Params? <==> AllDecode(pairs, decode)
    decreases |pairs|
  {
    if pairs != [] {
      ReduceFailsExactlyOnBadValue(params, pairs[1..], decode);
      if pairs[0] != "" && decode(PairValue(pairs[0])).Decoded? {
        ReduceFailsExactlyOnBadValue(params[PairKey(pairs[0]) := decode(PairValue(pairs[0])).text], pairs[1..], decode);
      }
      if AllDecode(pairs, decode) {
        assert AllDecode(pairs[1..], decode) by {
          forall i | 0 <= i < |pairs[1..]| && pairs[1..][i] != "" ensures decode(PairValue(pairs[1..][i])).Decoded? {
            assert pairs[1..][i] == pairs[i + 1];
          }
        }
      }
      if AllDecode(pairs[1..], decode) && (pairs[0] == "" || decode(PairValue(pairs[0])).Decoded?) {
        forall i | 0 <= i < |pairs| && pairs[i] != "" ensures decode(PairValue(pairs[i])).Decoded? {
          if i > 0 { assert pairs[i] == pairs[1..][i - 1]; }
        }
      }
    }
  }

  /** Later duplicate keys overwrite earlier ones: a key maps to the decoded
      value of the last piece that binds it, and keys no piece binds keep
      their starting binding. */
  lemma {:induction false} ReduceLastWins(params: map<string, string>, pairs: seq<string>, decode: string -> Decoded, k: string)
    requires Reduce(params, pairs, decode).Params?
    ensures var m := Reduce(params, pairs, decode).params;
      var last := LastBinding(pairs, k);
      (last >= 0 ==> k in m && decode(PairValue(pairs[last])) == Decoded(m[k])) &&
      (last == -1 ==> (k in m <==> k in params) && (k in params ==> m[k] == params[k]))
    decreases |pairs|
  {
    if pairs != [] {
      if pairs[0] == "" {
        ReduceLastWins(params, pairs[1..], decode, k);
      } else {
        var v := decode(PairValue(pairs[0])).text;
        ReduceLastWins(params[PairKey(pairs[0]) := v], pairs[1..], decode, k);
      }
    }
  }

  /** `hashParams.access_token`. */
  function AccessToken(r: FragmentResult): Option<string>
    requires r.Params?
  {
    if "access_token" in r.params then Some(r.params["access_token"]) else None
  }

  // ---------------------------------------------------------------------
  // The callback handler
  // ---------------------------------------------------------------------

  /** Where the page sends the browser once the callback has succeeded. */
  datatype Navigation = ToSignup(fromGoogle: bool, googleStep: int) | ToDashboard

  /** The body of `POST /api/auth/process-auth-callback`. */
  datatype CallbackRequest = CallbackRequest(accessToken: string, authAction: Option<string>)

  /** The backend's answer: the response's `user` and `token`, or a failure
      with its message. */
  datatype CallbackResponse =
    | Responded(user: Option<User>, token: Option<string>)
    | RequestFailed(message: Option<string>)

  /** The stored `googleAuthAction`. */
  function StoredAction(items: map<string, string>): Option<string> {
    if GoogleAuthActionKey in items then Some(items[GoogleAuthActionKey]) else None
  }

  /** The storage after the first step: the in-progress flag is set exactly
      for a stored `signup` action, and removed otherwise. */
  function AfterFlag(items: map<string, string>): (r: map<string, string>)
    ensures StoredAction(items) == Some("signup") ==>
      GoogleSignupInProgressKey in r && r[GoogleSignupInProgressKey] == "true"
    ensures StoredAction(items) != Some("signup") ==> GoogleSignupInProgressKey !in r
    ensures forall k :: k != GoogleSignupInProgressKey ==> (k in r <==> k in items)
  {
    if StoredAction(items) == Some("signup") then items[GoogleSignupInProgressKey := "true"]
    else items - {GoogleSignupInProgressKey}
  }

  /** The profile staged for the registration form. */
  function StagedProfile(u: User): (r: GoogleUserData)
    ensures r.email == u.email && r.picture == u.avatarUrl && r.sub == None
    ensures r.firstname.Some? && r.lastname.Some?
    ensures TruthyOpt(u.firstname) ==> r.firstname == u.firstname
    ensures !TruthyOpt(u.firstname) ==> r.firstname == Some("")
    ensures TruthyOpt(u.lastname) ==> r.lastname == u.lastname
    ensures !TruthyOpt(u.lastname) ==> r.lastname == Some("")
  {
    GoogleUserData(u.email, Some(OrEmpty(u.firstname)), Some(OrEmpty(u.lastname)), u.avatarUrl, None)
  }

  /** The response carries both a user and a non-empty token. */
  predicate Accepted(response: CallbackResponse) {
    response.Responded? && response.user.Some? && TruthyOpt(response.token)
  }

  /** The fragment parsed and carried a non-empty `access_token`, so the
      handler goes on to the backend. */
  predicate ReachesBackend(hash: string, decode: string -> Decoded) {
    ParseFragment(hash, decode).Params? && TruthyOpt(AccessToken(ParseFragment(hash, decode)))
  }

  /** The access token the handler stores and posts. */
  function TokenOf(hash: string, decode: string -> Decoded): string
    requires ReachesBackend(hash, decode)
  {
    AccessToken(ParseFragment(hash, decode)).value
  }

  /** The message of an early return: a decoding error or a missing token. */
  function EarlyError(hash: string, decode: string -> Decoded): string
    requires !ReachesBackend(hash, decode)
  {
    var parsed := ParseFragment(hash, decode);
    if parsed.DecodeFailed? then OrDefault(Some(parsed.message), FailedMessage) else NoAccessTokenMessage
  }

  /** The message recorded for a backend answer that is not accepted. */
  function RejectionError(response: CallbackResponse): string
    requires !Accepted(response)
  {
    if response.RequestFailed? then OrDefault(response.message, FailedMessage) else FailedMessage
  }

  /** The storage once the session of an accepted answer is written. */
  function SignedInItems(items: map<string, string>, accessToken: string, response: CallbackResponse, json: JsonCodec): map<string, string>
    requires Accepted(response)
  {
    AfterFlag(items)[GoogleAccessTokenKey := accessToken][TokenKey := response.token.value][UserKey := json.stringifyUser(response.user.value)]
  }

  class CallbackPage {
    const auth: AuthSession
    var loading: bool
    var error: Option<string>
    /** The navigation scheduled by the page, if any. */
    var navigation: Option<Navigation>

    constructor (auth: AuthSession)
      ensures this.auth == auth
      ensures loading && error == None && navigation == None
    {
      this.auth := auth;
      loading := true;
      error := None;
      navigation := None;
    }

    /** The session fields the handler writes still hold their old values. */
    twostate predicate SessionUnchanged()
      reads this, auth
    {
      auth.currentUser == old(auth.currentUser) && auth.isAuthenticated == old(auth.isAuthenticated) &&
      auth.isInGoogleSignupFlow == old(auth.isInGoogleSignupFlow)
    }

    /** `handleAuthCallback`, with the context setters it calls taken as direct
        writes to the session. `sent` is the request posted to the backend. */
    method HandleAuthCallback(hash: string, decode: string -> Decoded, response: CallbackResponse)
      returns (sent: Option<CallbackRequest>)
      modifies this, auth, auth.storage
      ensures !loading
      ensures auth.isLoading == old(auth.isLoading) && auth.error == old(auth.error)
      ensures auth.meFetchPending == old(auth.meFetchPending)
      ensures !ReachesBackend(hash, decode) ==>
        error == Some(EarlyError(hash, decode)) && sent == None &&
        auth.storage.items == AfterFlag(old(auth.storage.items)) &&
        navigation == old(navigation) && SessionUnchanged()
      ensures ReachesBackend(hash, decode) ==>
        sent == Some(CallbackRequest(TokenOf(hash, decode), StoredAction(old(auth.storage.items))))
      ensures ReachesBackend(hash, decode) && !Accepted(response) ==>
        error == Some(RejectionError(response)) &&
        auth.storage.items == AfterFlag(old(auth.storage.items))[GoogleAccessTokenKey := TokenOf(hash, decode)] &&
        navigation == old(navigation) && SessionUnchanged()
      ensures ReachesBackend(hash, decode) && Accepted(response) ==>
        error == old(error) && auth.currentUser == response.user && auth.isAuthenticated
      ensures ReachesBackend(hash, decode) && Accepted(response) && StoredAction(old(auth.storage.items)) == Some("signup") ==>
        auth.storage.items ==
          SignedInItems(old(auth.storage.items), TokenOf(hash, decode), response, auth.json)[GoogleUserDataKey := auth.json.stringifyGoogle(StagedProfile(response.user.value))] &&
        auth.isInGoogleSignupFlow && navigation == Some(ToSignup(true, 2))
      ensures ReachesBackend(hash, decode) && Accepted(response) && StoredAction(old(auth.storage.items)) != Some("signup") ==>
        auth.storage.items ==
          SignedInItems(old(auth.storage.items), TokenOf(hash, decode), response, auth.json) - {GoogleSignupInProgressKey, GoogleAuthActionKey} &&
        !auth.isInGoogleSignupFlow && navigation == Some(ToDashboard)
    {
      loading := true;
      sent := None;
      var action := auth.storage.GetItem(GoogleAuthActionKey);
      if action == Some("signup") {
        auth.storage.SetItem(GoogleSignupInProgressKey, "true");
      } else {
        auth.storage.RemoveItem(GoogleSignupInProgressKey);
      }
      ghost var flagged := auth.storage.items;
      assert flagged == AfterFlag(old(auth.storage.items));
      var parsed := ParseFragment(hash, decode);
      if parsed.DecodeFailed? {
        error := Some(OrDefault(Some(parsed.message), FailedMessage));
        loading := false;
        return;
      }
      var accessToken := AccessToken(parsed);
      if !TruthyOpt(accessToken) {
        error := Some(NoAccessTokenMessage);
        loading := false;
        return;
      }
      auth.storage.SetItem(GoogleAccessTokenKey, accessToken.value);
      sent := Some(CallbackRequest(accessToken.value, action));
      if !Accepted(response) {
        error := Some(RejectionError(response));
      } else {
        ghost var staged := auth.storage.items;
        assert staged == AfterFlag(old(auth.storage.items))[GoogleAccessTokenKey := accessToken.value];
        CompleteSignIn(response, action);
      }
      loading := false;
    }

    /** The accepted branch of `handleAuthCallback`: the session is stored
        and set, and the stored action picks the way on (staged profile and
        the sign-up wizard, or the dashboard after the Google keys are
        cleaned up). */
    method CompleteSignIn(response: CallbackResponse, action: Option<string>)
      requires Accepted(response)
      modifies auth, auth.storage, this
      ensures loading == old(loading) && error == old(error)
      ensures auth.isLoading == old(auth.isLoading) && auth.error == old(auth.error)
      ensures auth.meFetchPending == old(auth.meFetchPending)
      ensures auth.currentUser == response.user && auth.isAuthenticated
      ensures action == Some("signup") ==>
        auth.storage.items ==
          old(auth.storage.items)[TokenKey := response.token.value][UserKey := auth.json.stringifyUser(response.user.value)]
            [GoogleUserDataKey := auth.json.stringifyGoogle(StagedProfile(response.user.value))] &&
        auth.isInGoogleSignupFlow && navigation == Some(ToSignup(true, 2))
      ensures action != Some("signup") ==>
        auth.storage.items ==
          old(auth.storage.items)[TokenKey := response.token.value][UserKey := auth.json.stringifyUser(response.user.value)]
            - {GoogleSignupInProgressKey, GoogleAuthActionKey} &&
        !auth.isInGoogleSignupFlow && navigation == Some(ToDashboard)
    {
      auth.storage.SetItem(TokenKey, response.token.value);
      auth.storage.SetItem(UserKey, auth.json.stringifyUser(response.user.value));
      auth.currentUser := response.user;
      auth.isAuthenticated := true;
      if action == Some("signup") {
        auth.storage.SetItem(GoogleUserDataKey, auth.json.stringifyGoogle(StagedProfile(response.user.value)));
        auth.isInGoogleSignupFlow := true;
        navigation := Some(ToSignup(true, 2));
      } else {
        ghost var signedIn := auth.storage.items;
        auth.isInGoogleSignupFlow := false;
        auth.storage.RemoveItem(GoogleSignupInProgressKey);
        auth.storage.RemoveItem(GoogleAuthActionKey);
        assert auth.storage.items == signedIn - {GoogleSignupInProgressKey, GoogleAuthActionKey};
        navigation := Some(ToDashboard);
      }
    }

    /** The same handler as the page runs it: the context offers no
        `setCurrentUser`, so the call after the two storage writes throws and
        the catch records the engine's message; no navigation is scheduled. */
    method HandleAuthCallbackAsWritten(hash: string, decode: string -> Decoded, response: CallbackResponse)
      returns (sent: Option<CallbackRequest>)
      modifies this, auth.storage
      ensures !loading && navigation == old(navigation)
      ensures !ReachesBackend(hash, decode) ==>
        error == Some(EarlyError(hash, decode)) && sent == None &&
        auth.storage.items == AfterFlag(old(auth.storage.items))
      ensures ReachesBackend(hash, decode) ==>
        sent == Some(CallbackRequest(TokenOf(hash, decode), StoredAction(old(auth.storage.items))))
      ensures ReachesBackend(hash, decode) && !Accepted(response) ==>
        error == Some(RejectionError(response)) &&
        auth.storage.items == AfterFlag(old(auth.storage.items))[GoogleAccessTokenKey := TokenOf(hash, decode)]
      ensures ReachesBackend(hash, decode) && Accepted(response) ==>
        error == Some(MissingSetterMessage) &&
        auth.storage.items == SignedInItems(old(auth.storage.items), TokenOf(hash, decode), response, auth.json)
    {
      loading := true;
      sent := None;
      var action := auth.storage.GetItem(GoogleAuthActionKey);
      if action == Some("signup") {
        auth.storage.SetItem(GoogleSignupInProgressKey, "true");
      } else {
        auth.storage.RemoveItem(GoogleSignupInProgressKey);
      }
      var parsed := ParseFragment(hash, decode);
      if parsed.DecodeFailed? {
        error := Some(OrDefault(Some(parsed.message), FailedMessage));
        loading := false;
        return;
      }
      var accessToken := AccessToken(parsed);
      if !TruthyOpt(accessToken) {
        error := Some(NoAccessTokenMessage);
        loading := false;
        return;
      }
      auth.storage.SetItem(GoogleAccessTokenKey, accessToken.value);
      sent := Some(CallbackRequest(accessToken.value, action));
      if !Accepted(response) {
        error := Some(RejectionError(response));
      } else {
        auth.storage.SetItem(TokenKey, response.token.value);
        auth.storage.SetItem(UserKey, auth.json.stringifyUser(response.user.value));
        error := Some(MissingSetterMessage);
      }
      loading := false;
    }
  }

  /** A decoder that leaves every text as it is. */
  function Verbatim(t: string): (d: Decoded)
    ensures d == Decoded(t)
  {
    Decoded(t)
  }

  /** A string without the separator splits into itself. */
  lemma SplitWithoutSeparator(s: string, sep: char)
    requires sep !in s
    ensures Split(s, sep) == [s]
  {
    assert IndexOf(s, sep) == -1;
  }

  /** Splitting at the first separator. */
  lemma SplitAtFirst(a: string, sep: char, b: string)
    requires sep !in a
    ensures Split(a + [sep] + b, sep) == [a] + Split(b, sep)
  {
    var s := a + [sep] + b;
    assert s[|a|] == sep;
    assert forall k :: 0 <= k < |a| ==> s[k] == a[k];
    assert IndexOf(s, sep) == |a|;
    assert s[..|a|] == a && s[|a| + 1..] == b;
  }

  /** A fragment made of the one pair `access_token=t` carries the token `t`. */
  lemma {:induction false} SingleTokenFragment(t: string)
    requires t != "" && '&' !in t && '=' !in t
    ensures ReachesBackend("#access_token=" + t, Verbatim)
    ensures TokenOf("#access_token=" + t, Verbatim) == t
  {
    var key := "access_token";
    var body := key + "=" + t;
    assert DropFirst("#access_token=" + t) == body;
    assert '&' !in key && '=' !in key;
    assert '&' !in body by {
      forall k | 0 <= k < |body| ensures body[k] != '&' {
        if k < |key| { assert body[k] == key[k]; } else if k > |key| { assert body[k] == t[k - |key| - 1]; }
      }
    }
    SplitWithoutSeparator(body, '&');
    SplitAtFirst(key, '=', t);
    SplitWithoutSeparator(t, '=');
    assert Split(body, '=') == [key, t];
    assert Reduce(map[], [body], Verbatim) == Reduce(map[key := t], [], Verbatim);
  }

  /** A sign-in by Google with no pending action: the page as written stops
      at the missing setter and never leaves the callback route, while the
      handler with the setters in place reaches the dashboard. */
  method MissingSetterBlocksSignIn() returns (asWritten: Option<Navigation>, corrected: Option<Navigation>)
    ensures asWritten == None
    ensures corrected == Some(ToDashboard)
  {
    var hash := "#access_token=" + "abc";
    var json := JsonCodec(u => "{}", t => Threw, g => "{}", t => Threw);
    var response := Responded(Some(User(Some("1"), None, None, None, None, None, None)), Some("jwt"));
    assert "abc"[0] == 'a' && "abc"[1] == 'b' && "abc"[2] == 'c';
    SingleTokenFragment("abc");
    assert Accepted(response);

    var storage1 := new LocalStorage(map[]);
    var session1 := new AuthSession(storage1, json);
    var page1 := new CallbackPage(session1);
    var _ := page1.HandleAuthCallbackAsWritten(hash, Verbatim, response);
    asWritten := page1.navigation;

    var storage2 := new LocalStorage(map[]);
    var session2 := new AuthSession(storage2, json);
    var page2 := new CallbackPage(session2);
    var _ := page2.HandleAuthCallback(hash, Verbatim, response);
    corrected := page2.navigation;
  }
}
