// Admission in app.js: the session check against the token store and the
// GitHub login allow-list applied at the OAuth callback.
module Sessions {
  import opened JsValues

  /** Seven days in milliseconds: 3600 * 1000 * 24 * 7. */
  const SESSION_TTL: int := 3600 * 1000 * 24 * 7

  /** One entry of `store.tokens`: when the session was issued (milliseconds
      since the epoch) and the GitHub login it belongs to. */
  datatype Session = Session(createdAt: int, githubLogin: string)

  /** checkLogin: looks up the `csh_token` cookie (a missing cookie looks up
      the key "undefined") and gives the stored login unless the session was
      issued more than seven days before `now`. */
  function CheckLogin(tokens: map<string, Session>, cookie: JsString, now: int): (login: Option<string>)
    ensures login.Some? <==> Interpolate(cookie) in tokens && now - tokens[Interpolate(cookie)].createdAt <= SESSION_TTL
    ensures login.Some? ==> login.value == tokens[Interpolate(cookie)].githubLogin
  {
    var key := Interpolate(cookie);
    if key !in tokens || tokens[key].createdAt < now - SESSION_TTL then None
    else Some(tokens[key].githubLogin)
  }

  /** The handlers' `if (!checkLogin(req))`: an empty login is refused too. */
  predicate Admitted(login: Option<string>)
  {
    Truthy(login)
  }

  /** A session is accepted from the moment it is issued up to and including
      exactly seven days later, and refused from one millisecond after. */
  lemma SessionWindow(tokens: map<string, Session>, token: string, now: int)
    requires token in tokens && tokens[token].createdAt <= now
    ensures CheckLogin(tokens, Some(token), now) == Some(tokens[token].githubLogin)
            <==> now <= tokens[token].createdAt + 604800000
  {
  }

  /** A session accepted at some time was accepted at every earlier time since
      it was issued (no sliding expiry: checking never extends it). */
  lemma SessionExpiryMonotone(tokens: map<string, Session>, cookie: JsString, earlier: int, later: int)
    requires earlier <= later
    requires CheckLogin(tokens, cookie, later).Some?
    ensures CheckLogin(tokens, cookie, earlier) == CheckLogin(tokens, cookie, later)
  {
  }

  // ---------------------------------------------------------------------
  // The allow-list: `(ALLOW_GITHUB_LOGINS || '').split(',').filter(Boolean)`

  /** `s.split(sep)` for a one-character separator: the text between
      separators, including empty pieces. */
  function Split(s: string, sep: char): (parts: seq<string>)
    ensures |parts| >= 1
    ensures forall i :: 0 <= i < |parts| ==> sep !in parts[i]
  {
    if s == [] then [""]
    else
      var rest := Split(s[1..], sep);
      if s[0] == sep then [""] + rest
      else [[s[0]] + rest[0]] + rest[1..]
  }

  /** `.filter(Boolean)` on strings: drops the empty ones, keeps the order. */
  function NonEmpty(parts: seq<string>): (r: seq<string>)
    ensures forall x :: x in r <==> x in parts && x != ""
    ensures |r| <= |parts|
  {
    if parts == [] then []
    else if parts[0] == "" then NonEmpty(parts[1..])
    else [parts[0]] + NonEmpty(parts[1..])
  }

  /** The logins ALLOW_GITHUB_LOGINS lists: its non-empty comma-separated
      entries, an unset variable listing none. */
  function AllowList(allowGithubLogins: JsString): (allow: seq<string>)
    ensures forall x :: x in allow <==> x in Split(Or(allowGithubLogins, ""), ',') && x != ""
    ensures forall x :: x in allow ==> ',' !in x
  {
    NonEmpty(Split(Or(allowGithubLogins, ""), ','))
  }

  /** Round trip: joining the pieces back with the separator gives the text. */
  lemma {:induction false} SplitJoin(s: string, sep: char)
    ensures Join(Split(s, sep), sep) == s
  {
    if s != [] {
      var rest := Split(s[1..], sep);
      SplitJoin(s[1..], sep);
      if s[0] == sep {
        assert ([""] + rest)[1..] == rest;
      } else {
        var parts := [[s[0]] + rest[0]] + rest[1..];
        if |rest| > 1 {
          assert parts[1..] == rest[1..];
          assert Join(rest, sep) == rest[0] + [sep] + Join(rest[1..], sep);
        }
      }
    }
  }

  predicate AllEmpty(parts: seq<string>)
  {
    forall i :: 0 <= i < |parts| ==> parts[i] == ""
  }

  predicate OnlySeparators(s: string, sep: char)
  {
    forall i :: 0 <= i < |s| ==> s[i] == sep
  }

  /** Every piece of the split is empty exactly when the text is nothing but
      separators. */
  lemma {:induction false} SplitAllEmpty(s: string, sep: char)
    ensures AllEmpty(Split(s, sep)) <==> OnlySeparators(s, sep)
  {
    if s != [] {
      SplitAllEmpty(s[1..], sep);
      var rest := Split(s[1..], sep);
      var parts := Split(s, sep);
      if s[0] == sep {
        assert parts == [""] + rest;
        assert AllEmpty(parts) <==> AllEmpty(rest) by {
          assert forall i :: 0 <= i < |rest| ==> rest[i] == parts[i + 1];
          assert forall i :: 1 <= i < |parts| ==> parts[i] == rest[i - 1];
        }
        assert OnlySeparators(s, sep) <==> OnlySeparators(s[1..], sep) by {
          assert forall i :: 0 <= i < |s[1..]| ==> s[1..][i] == s[i + 1];
          assert forall i :: 1 <= i < |s| ==> s[i] == s[1..][i - 1];
        }
      } else {
        assert parts[0] != "";
      }
    }
  }

  /** The allow-list is empty, so every login is admitted, exactly when
      ALLOW_GITHUB_LOGINS is unset or consists of commas only. A value of
      blanks such as " " is not empty: it lists the login " ". */
  lemma AllowListEmpty(allowGithubLogins: JsString)
    ensures |AllowList(allowGithubLogins)| == 0 <==> OnlySeparators(Or(allowGithubLogins, ""), ',')
  {
    var parts := Split(Or(allowGithubLogins, ""), ',');
    SplitAllEmpty(Or(allowGithubLogins, ""), ',');
    if |AllowList(allowGithubLogins)| == 0 {
      forall i | 0 <= i < |parts| ensures parts[i] == "" {
        assert parts[i] in parts;
        assert parts[i] !in AllowList(allowGithubLogins);
      }
    } else {
      var x := AllowList(allowGithubLogins)[0];
      assert x in parts && x != "";
    }
  }

  /** The OAuth callback's check: an empty allow-list admits every login,
      otherwise only the logins it lists. So a login passes exactly when the
      variable is unset or only commas, or the login is one of its non-empty
      comma-separated entries. */
  function LoginAllowed(allowGithubLogins: JsString, login: string): (allowed: bool)
    ensures allowed <==> OnlySeparators(Or(allowGithubLogins, ""), ',')
                         || (login != "" && login in Split(Or(allowGithubLogins, ""), ','))
  {
    AllowListEmpty(allowGithubLogins);
    var allow := AllowList(allowGithubLogins);
    !(|allow| > 0 && login !in allow)
  }
}
