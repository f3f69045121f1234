// app.js: the hub's process state (the token and activity stores), the
// activity ledger and the idle reaper, and the decisions of its request
// handlers. Kubernetes is the `Cluster` snapshot each handler observes; the
// handlers report the calls they make on it.
module App {
  import opened JsValues
  import opened AddressCodec
  import opened Sessions
  import opened Kube
  import opened Reaper

  // ---------------------------------------------------------------------
  // What a handler answers and which Kubernetes calls it makes

  datatype JsonBody = UrlBody(url: string) | LogsBody(logs: string) | MessageBody(message: string)

  /** One line of the workspace list on `/`: repository, pod IP, pod name. */
  datatype ListEntry = ListEntry(repo: string, podIP: string, name: string)

  datatype Response =
    | Redirect(location: string)                          // res.redirect(...)
    | Status(code: nat, body: string)                     // res.status(code).end/send(body)
    | Json(json: JsonBody)                                // res.json(...)
    | LoginLink(clientId: string)                         // 401 with the GitHub authorize link
    | WorkspaceList(login: string, entries: seq<ListEntry>) // 200 with the caller's workspaces
    | Proxy(target: string)                               // proxy(target)(req, res)
    | SessionIssued(token: string, accessToken: string)   // 302 to "/" setting both cookies
    | Unanswered                                          // the handler's promise rejected

  datatype KubeCall =
    | ListPods
    | ReadLog(name: string)
    | CreatePodCall(repo: string, user: JsString, token: JsString, v2rayConfigMap: JsString)
    | DeletePodCall(name: string)

  datatype Handled = Handled(calls: seq<KubeCall>, response: Response)

  /** What the GitHub calls of the OAuth callback give: an access token and
      the user's login, or an error from either call. */
  datatype Identity = Identified(accessToken: string, login: string) | IdentityFailed

  const NOT_FOUND: string := "not found"
  const DELETED_PAGE: string := "删除成功，<a href=\"/\">返回</a>"
  const WAITING: string := "等待启动"
  const CREATED_SUFFIX: string := "创建成功"
  const LOG_FAILED_PREFIX: string := "获取log失败:"
  /** The message of the TypeError `pod.status.podIP.replace` throws when the
      pod has no IP. */
  const NO_IP_ERROR: string := "Cannot read properties of undefined (reading 'replace')"
  /** Where WebSocket upgrades go when the forwarded host carries no address. */
  const LOCAL_FALLBACK: string := "http://127.0.0.1:3000"

  /** `res.redirect(process.env.HOME_URL || '/')`: to HOME_URL when it is
      set and non-empty, else to the hub's root; never to an empty location. */
  function HomeRedirect(env: ProcessEnv): (r: Response)
    ensures r.Redirect? && r.location != ""
    ensures Truthy(env.homeUrl) ==> r.location == env.homeUrl.value
    ensures !Truthy(env.homeUrl) ==> r.location == "/"
  {
    Redirect(Or(env.homeUrl, "/"))
  }

  /** `http://${ip}:${port}`: an explicit port as matched, the default one
      as 8080. */
  function Target(a: Address): (url: string)
    ensures a.port.Explicit? ==> url == "http://" + a.ip + ":" + a.port.digits
    ensures a.port.DefaultPort? ==> url == "http://" + a.ip + ":8080"
  {
    DefaultPortText();
    "http://" + a.ip + ":" + PortText(a.port)
  }

  // ---------------------------------------------------------------------
  // The WebSocket router

  /** The `router` of the WebSocket proxy: the address decoded from the
      X-Forwarded-Host header, else the local fallback. A missing header is
      matched as the text "undefined". No session is checked on this path. */
  function WsTarget(forwardedHost: JsString): (target: string)
    ensures Decode(Interpolate(forwardedHost)).Some? ==> target == Target(Decode(Interpolate(forwardedHost)).value)
    ensures Decode(Interpolate(forwardedHost)).None? ==> target == LOCAL_FALLBACK
  {
    var d := Decode(Interpolate(forwardedHost));
    if d.None? then LOCAL_FALLBACK
    else
      var ip: JsString := Some(d.value.ip);
      DecodedIpNonEmpty(Interpolate(forwardedHost));
      if Truthy(ip) then Target(d.value) else LOCAL_FALLBACK
  }

  /** A WebSocket to a workspace URL the hub handed out reaches code-server:
      the router targets the pod's IP on port 8080. */
  lemma WsReachesWorkspace(octets: seq<string>, hostname: string)
    requires |octets| == OCTETS && AllDigitRuns(octets)
    ensures WsTarget(Some(HostLabel(Join(octets, '.'), hostname))) == "http://" + Join(octets, '.') + ":8080"
  {
    var ip := Join(octets, '.');
    var host := HostLabel(ip, hostname);
    RoundTrip(octets, hostname);
    assert Interpolate(Some(host)) == host;
  }

  /** Without an X-Forwarded-Host header the upgrade goes to the fallback. */
  lemma WsWithoutHeader()
    ensures WsTarget(None) == LOCAL_FALLBACK
  {
    var u := "undefined";
    assert DigitRun(u) == 0;
    assert ScanRuns(u, OCTETS + 1).None?;
    assert ScanRuns(u, OCTETS).None?;
  }

  // ---------------------------------------------------------------------
  // Readiness: `/HTTP\sserver\slistening\son/.test(logs)`

  /** `\s` in a JavaScript regular expression. */
  predicate IsRegexSpace(c: char)
  {
    c == ' ' || c == '\t' || c == '\n' || c == '\r' || c as int == 0x0b || c as int == 0x0c
    || c as int == 0xa0 || c as int == 0x1680 || (0x2000 <= c as int <= 0x200a)
    || c as int == 0x2028 || c as int == 0x2029 || c as int == 0x202f || c as int == 0x205f
    || c as int == 0x3000 || c as int == 0xfeff
  }

  const MARKER_LENGTH: nat := 24

  /** The marker `HTTP server listening on`, any `\s` between the words,
      starting at position `i` of `s`. */
  predicate MarkerAt(s: string, i: nat)
  {
    i + MARKER_LENGTH <= |s|
    && s[i..i + 4] == "HTTP" && IsRegexSpace(s[i + 4])
    && s[i + 5..i + 11] == "server" && IsRegexSpace(s[i + 11])
    && s[i + 12..i + 21] == "listening" && IsRegexSpace(s[i + 21])
    && s[i + 22..i + 24] == "on"
  }

  /** The regular expression test: a search for the marker from every
      position, left to right. */
  function MarkerTest(s: string): (found: bool)
    ensures found <==> exists i: nat :: MarkerAt(s, i)
    decreases |s|
  {
    if |s| < MARKER_LENGTH then
      assert forall i: nat :: !MarkerAt(s, i);
      false
    else if MarkerAt(s, 0) then true
    else
      var rest := MarkerTest(s[1..]);
      assert forall i: nat :: MarkerAt(s[1..], i) <==> MarkerAt(s, i + 1) by {
        forall i: nat ensures MarkerAt(s[1..], i) <==> MarkerAt(s, i + 1) {
          if i + MARKER_LENGTH <= |s[1..]| {
            assert s[1..][i..i + 4] == s[i + 1..i + 5];
            assert s[1..][i + 5..i + 11] == s[i + 6..i + 12];
            assert s[1..][i + 12..i + 21] == s[i + 13..i + 22];
            assert s[1..][i + 22..i + 24] == s[i + 23..i + 25];
          }
        }
      }
      assert (exists i: nat :: MarkerAt(s, i)) ==> exists i: nat :: MarkerAt(s[1..], i) by {
        if exists i: nat :: MarkerAt(s, i) {
          var i: nat :| MarkerAt(s, i);
          assert i > 0;
          assert MarkerAt(s[1..], i - 1);
        }
      }
      rest
  }

  /** code-server's startup line is recognised as ready. */
  lemma StartupLogIsReady(prefix: string, suffix: string)
    ensures MarkerTest(prefix + "HTTP server listening on" + suffix)
  {
    var m := "HTTP server listening on";
    var s := prefix + m + suffix;
    var i := |prefix|;
    assert s[i..i + MARKER_LENGTH] == m;
    assert s[i..i + 4] == m[..4] == "HTTP";
    assert s[i + 5..i + 11] == m[5..11] == "server";
    assert s[i + 12..i + 21] == m[12..21] == "listening";
    assert s[i + 22..i + 24] == m[22..24] == "on";
    assert s[i + 4] == s[i + 11] == s[i + 21] == ' ';
    assert MarkerAt(s, i);
  }

  // ---------------------------------------------------------------------
  // Selecting the caller's workspaces

  /** `pods.filter(pod => env.find(e => e.name === 'GH_USER')?.value === username)` */
  function OwnedBy(pods: seq<Pod>, user: string): (mine: seq<Pod>)
    ensures forall p {:trigger p in mine} :: p in mine <==> p in pods && EnvValue(p.env, "GH_USER") == Some(user)
    ensures |mine| <= |pods|
  {
    if pods == [] then []
    else (if EnvValue(pods[0].env, "GH_USER") == Some(user) then [pods[0]] else []) + OwnedBy(pods[1..], user)
  }

  /** The result of `pods.find(pod => env.find(e => e.name === 'REPO').value === repo)`:
      the first pod for `repo`, none, or the TypeError of a pod examined
      before any match that has no REPO entry. */
  datatype Selection = Selected(pod: Pod) | NoMatch | RepoMissing

  function SelectWorkspace(mine: seq<Pod>, repo: string): (s: Selection)
    ensures s.Selected? ==> exists i :: 0 <= i < |mine| && mine[i] == s.pod && EnvValue(mine[i].env, "REPO") == Some(repo)
                                       && forall j :: 0 <= j < i ==> HasOtherRepo(mine[j], repo)
    ensures s.NoMatch? <==> forall j :: 0 <= j < |mine| ==> HasOtherRepo(mine[j], repo)
    ensures s.RepoMissing? ==> exists i :: 0 <= i < |mine| && EnvValue(mine[i].env, "REPO").None?
                                         && forall j :: 0 <= j < i ==> HasOtherRepo(mine[j], repo)
    decreases |mine|
  {
    if mine == [] then NoMatch
    else
      var r := EnvValue(mine[0].env, "REPO");
      if r.None? then RepoMissing
      else if r.value == repo then Selected(mine[0])
      else
        var s := SelectWorkspace(mine[1..], repo);
        assert forall j :: 0 <= j < |mine| - 1 ==> mine[1..][j] == mine[j + 1];
        s
  }

  /** A pod whose REPO entry exists and names another repository. */
  predicate HasOtherRepo(p: Pod, repo: string)
  {
    EnvValue(p.env, "REPO").Some? && EnvValue(p.env, "REPO").value != repo
  }

  /** A pod that belongs to `user` and is a workspace of `repo`. */
  predicate Serves(p: Pod, user: string, repo: string)
  {
    EnvValue(p.env, "GH_USER") == Some(user) && EnvValue(p.env, "REPO") == Some(repo)
  }

  /** `pods[i]` is the first listed pod serving `user` and `repo`. */
  predicate FirstServing(pods: seq<Pod>, i: int, user: string, repo: string)
  {
    0 <= i < |pods| && Serves(pods[i], user, repo) && forall j :: 0 <= j < i ==> !Serves(pods[j], user, repo)
  }

  lemma FirstServingShift(pods: seq<Pod>, i: int, user: string, repo: string)
    requires |pods| > 0 && !Serves(pods[0], user, repo) && FirstServing(pods[1..], i, user, repo)
    ensures FirstServing(pods, i + 1, user, repo) && pods[i + 1] == pods[1..][i]
  {
    forall j | 0 < j < i + 1 ensures !Serves(pods[j], user, repo) {
      assert pods[j] == pods[1..][j - 1];
    }
  }

  /** `/workspaces` opens the first listed pod that belongs to the user and to
      the repository: no earlier listed pod has both. */
  lemma {:induction false} SelectsFirstListed(pods: seq<Pod>, user: string, repo: string)
    requires SelectWorkspace(OwnedBy(pods, user), repo).Selected?
    ensures exists i :: FirstServing(pods, i, user, repo) && pods[i] == SelectWorkspace(OwnedBy(pods, user), repo).pod
    decreases |pods|
  {
    var p := SelectWorkspace(OwnedBy(pods, user), repo).pod;
    var head := pods[0];
    var rest := OwnedBy(pods[1..], user);
    if EnvValue(head.env, "GH_USER") == Some(user) && EnvValue(head.env, "REPO") == Some(repo) {
      assert OwnedBy(pods, user) == [head] + rest;
      assert p == head && FirstServing(pods, 0, user, repo);
    } else {
      if EnvValue(head.env, "GH_USER") == Some(user) {
        assert OwnedBy(pods, user) == [head] + rest;
        assert ([head] + rest)[1..] == rest;
      } else {
        assert OwnedBy(pods, user) == rest;
      }
      assert SelectWorkspace(rest, repo) == SelectWorkspace(OwnedBy(pods, user), repo);
      SelectsFirstListed(pods[1..], user, repo);
      var i :| FirstServing(pods[1..], i, user, repo) && pods[1..][i] == p;
      FirstServingShift(pods, i, user, repo);
    }
  }

  lemma {:induction false} OwnedByAppend(a: seq<Pod>, b: seq<Pod>, user: string)
    ensures OwnedBy(a + b, user) == OwnedBy(a, user) + OwnedBy(b, user)
    decreases |a|
  {
    if a != [] {
      var head := if EnvValue(a[0].env, "GH_USER") == Some(user) then [a[0]] else [];
      calc {
        OwnedBy(a + b, user);
        { assert (a + b)[0] == a[0] && (a + b)[1..] == a[1..] + b; }
        head + OwnedBy(a[1..] + b, user);
        { OwnedByAppend(a[1..], b, user); }
        head + (OwnedBy(a[1..], user) + OwnedBy(b, user));
        (head + OwnedBy(a[1..], user)) + OwnedBy(b, user);
        OwnedBy(a, user) + OwnedBy(b, user);
      }
    } else {
      assert a + b == b;
    }
  }

  lemma {:induction false} SelectAfterOthers(others: seq<Pod>, p: Pod, rest: seq<Pod>, repo: string)
    requires forall j :: 0 <= j < |others| ==> HasOtherRepo(others[j], repo)
    requires EnvValue(p.env, "REPO") == Some(repo)
    ensures SelectWorkspace(others + [p] + rest, repo) == Selected(p)
    decreases |others|
  {
    if others == [] {
      assert (others + [p] + rest)[0] == p;
    } else {
      assert (others + [p] + rest)[0] == others[0];
      assert (others + [p] + rest)[1..] == others[1..] + [p] + rest;
      SelectAfterOthers(others[1..], p, rest, repo);
    }
  }

  lemma NoMatchPrefix(xs: seq<Pod>, ys: seq<Pod>, repo: string)
    requires SelectWorkspace(xs + ys, repo).NoMatch?
    ensures forall j :: 0 <= j < |xs| ==> HasOtherRepo(xs[j], repo)
  {
    forall j | 0 <= j < |xs| ensures HasOtherRepo(xs[j], repo) {
      assert (xs + ys)[j] == xs[j];
    }
  }

  lemma OwnedByCreated(created: Pod, repo: string, user: string, token: JsString)
    requires created.env == WorkspaceEnv(repo, Some(user), token)
    ensures OwnedBy([created], user) == [created] && EnvValue(created.env, "REPO") == Some(repo)
  {
    CreatedPodOwnership(repo, Some(user), token);
    assert [created][1..] == [];
  }

  lemma OwnedByInsert(before: seq<Pod>, after: seq<Pod>, p: Pod, user: string)
    requires OwnedBy([p], user) == [p]
    ensures OwnedBy(before + [p] + after, user) == OwnedBy(before, user) + [p] + OwnedBy(after, user)
  {
    var tail := [p] + after;
    calc {
      OwnedBy(before + [p] + after, user);
      { assert before + [p] + after == before + tail; }
      OwnedBy(before + tail, user);
      { OwnedByAppend(before, tail, user); }
      OwnedBy(before, user) + OwnedBy(tail, user);
      { OwnedByAppend([p], after, user); }
      OwnedBy(before, user) + ([p] + OwnedBy(after, user));
      OwnedBy(before, user) + [p] + OwnedBy(after, user);
    }
  }

  /** A pod created for `user` and `repo` because none of theirs matched is
      the one the next request for them opens, wherever the listing puts it
      among the pods that were there. */
  lemma CreatedWorkspaceIsFound(before: seq<Pod>, after: seq<Pod>, created: Pod, repo: string, user: string, token: JsString)
    requires created.env == WorkspaceEnv(repo, Some(user), token)
    requires SelectWorkspace(OwnedBy(before + after, user), repo).NoMatch?
    ensures SelectWorkspace(OwnedBy(before + [created] + after, user), repo) == Selected(created)
  {
    OwnedByAppend(before, after, user);
    NoMatchPrefix(OwnedBy(before, user), OwnedBy(after, user), repo);
    OwnedByCreated(created, repo, user, token);
    OwnedByInsert(before, after, created, user);
    SelectAfterOthers(OwnedBy(before, user), created, OwnedBy(after, user), repo);
  }

  // ---------------------------------------------------------------------
  // POST /workspaces

  /** The answer for an existing workspace pod, given what getPodLog gave. */
  function Readiness(pod: Pod, reply: LogReply, hostname: string): (body: JsonBody)
    ensures body.UrlBody? <==> reply.LogText? && MarkerTest(reply.text) && pod.podIP.Some?
    ensures body.UrlBody? ==> body.url == "https://" + HostLabel(pod.podIP.value, hostname)
    ensures body.LogsBody? <==> reply.LogText? && !MarkerTest(reply.text)
    ensures body.LogsBody? ==> body.logs == (if reply.text == "" then WAITING else reply.text)
    ensures reply.LogFailed? ==> body == MessageBody(LOG_FAILED_PREFIX + reply.message)
    ensures reply.LogText? && MarkerTest(reply.text) && pod.podIP.None? ==> body == MessageBody(LOG_FAILED_PREFIX + NO_IP_ERROR)
  {
    match reply
    case LogFailed(message) => MessageBody(LOG_FAILED_PREFIX + message)
    case LogText(logs) =>
      if MarkerTest(logs) then
        if pod.podIP.Some? then UrlBody("https://" + HostLabel(pod.podIP.value, hostname))
        else MessageBody(LOG_FAILED_PREFIX + NO_IP_ERROR)
      else LogsBody(Or(Some(logs), WAITING))
  }

  /** `POST /workspaces?repo=...`: open the caller's workspace for `repo`,
      or create it. `ghToken` is the `csh_gh_token` cookie. */
  function Workspaces(tokens: map<string, Session>, cookie: JsString, ghToken: JsString, repo: string,
                      hostname: string, cluster: Cluster, env: ProcessEnv, now: int): (h: Handled)
    ensures !Admitted(CheckLogin(tokens, cookie, now)) ==> h == Handled([], HomeRedirect(env))
    ensures Admitted(CheckLogin(tokens, cookie, now)) ==> |h.calls| >= 1 && h.calls[0] == ListPods
    ensures Admitted(CheckLogin(tokens, cookie, now))
            && (cluster.listed.None?
                || SelectWorkspace(OwnedBy(cluster.listed.value, CheckLogin(tokens, cookie, now).value), repo).RepoMissing?)
            ==> h.calls == [ListPods]
    ensures Admitted(CheckLogin(tokens, cookie, now)) && cluster.listed.Some? ==>
      var user := CheckLogin(tokens, cookie, now).value;
      var selection := SelectWorkspace(OwnedBy(cluster.listed.value, user), repo);
      && (selection.NoMatch? <==> h.calls == [ListPods, CreatePodCall(repo, Some(user), ghToken, env.v2rayConfigMap)])
      && (selection.Selected? ==> h == Handled([ListPods, ReadLog(selection.pod.name)],
                                               Json(Readiness(selection.pod, cluster.readLog(selection.pod.name), hostname))))
      && (selection.NoMatch? && cluster.createReply.CreatedBody? ==>
            h.response == Json(MessageBody(Interpolate(cluster.createReply.name) + CREATED_SUFFIX)))
    ensures h.response == Unanswered <==>
      Admitted(CheckLogin(tokens, cookie, now)) &&
      (cluster.listed.None?
       || SelectWorkspace(OwnedBy(cluster.listed.value, CheckLogin(tokens, cookie, now).value), repo).RepoMissing?
       || (SelectWorkspace(OwnedBy(cluster.listed.value, CheckLogin(tokens, cookie, now).value), repo).NoMatch?
           && cluster.createReply.CreateFailed?))
  {
    var login := CheckLogin(tokens, cookie, now);
    if !Admitted(login) then Handled([], HomeRedirect(env))
    else match cluster.listed
      case None => Handled([ListPods], Unanswered)
      case Some(pods) =>
        var user := login.value;
        match SelectWorkspace(OwnedBy(pods, user), repo)
        case RepoMissing => Handled([ListPods], Unanswered)
        case Selected(pod) =>
          Handled([ListPods, ReadLog(pod.name)], Json(Readiness(pod, cluster.readLog(pod.name), hostname)))
        case NoMatch =>
          var create := CreatePodCall(repo, Some(user), ghToken, env.v2rayConfigMap);
          match cluster.createReply
          case CreateFailed => Handled([ListPods, create], Unanswered)
          case CreatedBody(name) => Handled([ListPods, create], Json(MessageBody(Interpolate(name) + CREATED_SUFFIX)))
  }

  /** `/workspaces` asks Kubernetes for at most one new pod per request. */
  lemma {:induction false} WorkspacesCreatesAtMostOnce(tokens: map<string, Session>, cookie: JsString, ghToken: JsString,
                                     repo: string, hostname: string, cluster: Cluster, env: ProcessEnv, now: int)
    ensures var h := Workspaces(tokens, cookie, ghToken, repo, hostname, cluster, env, now);
      forall i, j :: 0 <= i < j < |h.calls| ==> !(h.calls[i].CreatePodCall? && h.calls[j].CreatePodCall?)
  {
  }

  /** The URL `/workspaces` hands out for a ready pod decodes, at the hub,
      back to that pod's IP and port 8080. */
  lemma WorkspaceUrlRoutesBack(pod: Pod, reply: LogReply, hostname: string, octets: seq<string>)
    requires |octets| == OCTETS && AllDigitRuns(octets) && pod.podIP == Some(Join(octets, '.'))
    requires Readiness(pod, reply, hostname).UrlBody?
    ensures exists host :: Readiness(pod, reply, hostname).url == "https://" + host
                           && Decode(host) == Some(Address(pod.podIP.value, DefaultPort))
  {
    RoundTrip(octets, hostname);
    assert Decode(HostLabel(pod.podIP.value, hostname)) == Some(Address(pod.podIP.value, DefaultPort));
  }

  // ---------------------------------------------------------------------
  // GET /delete/:podName

  /** Deletes the named pod whoever owns it; safeDeletePod hides a failed
      deletion, so the answer is the same either way. */
  function DeleteWorkspace(tokens: map<string, Session>, cookie: JsString, podName: string,
                           cluster: Cluster, env: ProcessEnv, now: int): (h: Handled)
    ensures !Admitted(CheckLogin(tokens, cookie, now)) ==> h == Handled([], HomeRedirect(env))
    ensures Admitted(CheckLogin(tokens, cookie, now)) && cluster.listed.None? ==> h == Handled([ListPods], Unanswered)
    ensures Admitted(CheckLogin(tokens, cookie, now)) && cluster.listed.Some? ==>
      var pods := cluster.listed.value;
      && ((forall i :: 0 <= i < |pods| ==> pods[i].name != podName) ==> h == Handled([ListPods], Status(404, NOT_FOUND)))
      && ((exists i :: 0 <= i < |pods| && pods[i].name == podName) ==>
            h == Handled([ListPods, DeletePodCall(podName)], Status(200, DELETED_PAGE)))
  {
    if !Admitted(CheckLogin(tokens, cookie, now)) then Handled([], HomeRedirect(env))
    else match cluster.listed
      case None => Handled([ListPods], Unanswered)
      case Some(pods) =>
        var found := FindByName(pods, podName);
        if found.None? then Handled([ListPods], Status(404, NOT_FOUND))
        else
          match SafeDeletePod(cluster, found.value.name)
          case Normal => Handled([ListPods, DeletePodCall(found.value.name)], Status(200, DELETED_PAGE))
  }

  /** `pods.find(p => p.metadata.name === name)` */
  function FindByName(pods: seq<Pod>, name: string): (found: Option<Pod>)
    ensures found.None? <==> forall i :: 0 <= i < |pods| ==> pods[i].name != name
    ensures found.Some? ==> found.value in pods && found.value.name == name
  {
    if pods == [] then None
    else if pods[0].name == name then Some(pods[0])
    else
      var f := FindByName(pods[1..], name);
      assert forall i :: 1 <= i < |pods| ==> pods[i] == pods[1..][i - 1];
      f
  }

  /** No ownership check: any two signed-in users get the same answer and
      cause the same deletion. */
  lemma DeleteIgnoresOwner(tokens: map<string, Session>, cookieA: JsString, cookieB: JsString, podName: string,
                           cluster: Cluster, env: ProcessEnv, now: int)
    requires Admitted(CheckLogin(tokens, cookieA, now)) && Admitted(CheckLogin(tokens, cookieB, now))
    ensures DeleteWorkspace(tokens, cookieA, podName, cluster, env, now) == DeleteWorkspace(tokens, cookieB, podName, cluster, env, now)
  {
  }

  // ---------------------------------------------------------------------
  // The hub's process state

  /** `store.tokens` and `store.pods`, and the handlers that use them. */
  class Hub {
    var tokens: map<string, Session>
    var pods: map<string, Activity>

    constructor ()
      ensures tokens == map[] && pods == map[]
    {
      tokens := map[];
      pods := map[];
    }

    /** updatePodActive: stamps the entry of `ip` with `now`. For an `ip`
        without an entry it writes `{lastActive: now}` and then throws, since
        it reassigns the `const` it read the entry into. */
    method UpdatePodActive(ip: string, now: int) returns (threw: bool)
      modifies this
      ensures tokens == old(tokens)
      ensures pods == old(pods)[ip := Activity(now)]
      ensures threw <==> ip !in old(pods)
    {
      var pod: Option<Activity> := if ip in pods then Some(pods[ip]) else None;
      if pod.None? {
        pods := pods[ip := Activity(now)];
        threw := true;
        return;
      }
      pods := pods[ip := pod.value.(lastActive := now)];
      threw := false;
    }

    /** clearOldPods: one reaper cycle over the pods Kubernetes lists. */
    method ClearOldPods(cluster: Cluster, now: int) returns (deleted: seq<string>, threw: bool)
      modifies this
      ensures tokens == old(tokens)
      ensures Cycle(pods, deleted, threw) == ReapCycle(old(pods), cluster, now)
    {
      deleted, threw := [], false;
      if cluster.listed.None? {
        threw := true;
        return;
      }
      var listing := cluster.listed.value;
      var i := 0;
      while i < |listing| && !threw
        invariant 0 <= i <= |listing|
        invariant tokens == old(tokens)
        invariant !threw ==> pods == old(pods)
                             && Reap(old(pods), listing, cluster, now) == After(deleted, Reap(old(pods), listing[i..], cluster, now))
        invariant threw ==> Reap(old(pods), listing, cluster, now) == Cycle(pods, deleted, true)
      {
        var pod := listing[i];
        var key := LedgerKey(pod);
        assert listing[i..][1..] == listing[i + 1..];
        if key !in pods {
          threw := UpdatePodActive(key, now);
        } else if Idle(pods[key], now) {
          deleted := deleted + [pod.name];
          threw := DeletePod(cluster, pod.name) == Threw;
        }
        i := i + 1;
      }
    }

    /** `GET /`: a request for a workspace host is proxied to it (after
        recording its activity); otherwise the caller's workspaces are
        listed. */
    method Root(cookie: JsString, hostname: string, cluster: Cluster, env: ProcessEnv, now: int) returns (h: Handled)
      modifies this
      ensures tokens == old(tokens)
      ensures !Admitted(CheckLogin(tokens, cookie, now)) ==>
        h == Handled([], LoginLink(Interpolate(env.ghClientId))) && pods == old(pods)
      ensures Admitted(CheckLogin(tokens, cookie, now)) && Decode(hostname).Some? ==>
        var a := Decode(hostname).value;
        && pods == old(pods)[a.ip := Activity(now)]
        && h == Handled([], if a.ip in old(pods) then Proxy(Target(a)) else Unanswered)
      ensures Admitted(CheckLogin(tokens, cookie, now)) && Decode(hostname).None? ==>
        pods == old(pods) && h == ListWorkspaces(CheckLogin(tokens, cookie, now).value, cluster)
    {
      var login := CheckLogin(tokens, cookie, now);
      if !Admitted(login) {
        return Handled([], LoginLink(Interpolate(env.ghClientId)));
      }
      var d := Decode(hostname);
      if d.Some? {
        var threw := UpdatePodActive(d.value.ip, now);
        h := Handled([], if threw then Unanswered else Proxy(Target(d.value)));
        return;
      }
      h := ListWorkspaces(login.value, cluster);
    }

    /** `app.all('*')`: a workspace host is proxied to (after recording its
        activity); any other request is not found. */
    method CatchAll(cookie: JsString, hostname: string, env: ProcessEnv, now: int) returns (r: Response)
      modifies this
      ensures tokens == old(tokens)
      ensures !Admitted(CheckLogin(tokens, cookie, now)) ==> r == HomeRedirect(env) && pods == old(pods)
      ensures Admitted(CheckLogin(tokens, cookie, now)) && Decode(hostname).Some? ==>
        var a := Decode(hostname).value;
        && pods == old(pods)[a.ip := Activity(now)]
        && r == if a.ip in old(pods) then Proxy(Target(a)) else Unanswered
      ensures Admitted(CheckLogin(tokens, cookie, now)) && Decode(hostname).None? ==>
        pods == old(pods) && r == Status(404, NOT_FOUND)
    {
      if !Admitted(CheckLogin(tokens, cookie, now)) {
        return HomeRedirect(env);
      }
      var d := Decode(hostname);
      if d.Some? {
        var threw := UpdatePodActive(d.value.ip, now);
        r := if threw then Unanswered else Proxy(Target(d.value));
        return;
      }
      r := Status(404, NOT_FOUND);
    }

    /** `GET /oauth/github?code=...`: signs the GitHub user in when the
        allow-list admits them, under the freshly generated `token`. */
    method OauthGithub(code: JsString, identity: Identity, token: string, env: ProcessEnv, now: int) returns (r: Response)
      modifies this
      ensures pods == old(pods)
      ensures !Truthy(code) ==> r == Status(401, "invalid code") && tokens == old(tokens)
      ensures Truthy(code) && identity.IdentityFailed? ==> r == Status(500, "error") && tokens == old(tokens)
      ensures Truthy(code) && identity.Identified? && !LoginAllowed(env.allowGithubLogins, identity.login) ==>
        r == Status(403, "forbidden") && tokens == old(tokens)
      ensures Truthy(code) && identity.Identified? && LoginAllowed(env.allowGithubLogins, identity.login) ==>
        && r == SessionIssued(token, identity.accessToken)
        && tokens == old(tokens)[token := Session(now, identity.login)]
        && forall t :: now <= t <= now + SESSION_TTL ==> CheckLogin(tokens, Some(token), t) == Some(identity.login)
    {
      if !Truthy(code) {
        return Status(401, "invalid code");
      }
      match identity
      case IdentityFailed =>
        r := Status(500, "error");
      case Identified(accessToken, login) =>
        if !LoginAllowed(env.allowGithubLogins, login) {
          return Status(403, "forbidden");
        }
        tokens := tokens[token := Session(now, login)];
        r := SessionIssued(token, accessToken);
    }
  }

  /** The workspace list of `/` for a signed-in user: their pods, each with
      its REPO entry; a pod without one makes the handler throw. */
  function ListWorkspaces(login: string, cluster: Cluster): (h: Handled)
    ensures h.calls == [ListPods]
    ensures h.response.WorkspaceList? <==>
      cluster.listed.Some? && forall p :: p in OwnedBy(cluster.listed.value, login) ==> EnvValue(p.env, "REPO").Some?
    ensures h.response.WorkspaceList? ==>
      var mine := OwnedBy(cluster.listed.value, login);
      && h.response.login == login && |h.response.entries| == |mine|
      && (forall i :: 0 <= i < |mine| ==>
            && h.response.entries[i].name == mine[i].name
            && Some(h.response.entries[i].repo) == EnvValue(mine[i].env, "REPO")
            && h.response.entries[i].podIP == Interpolate(mine[i].podIP))
    ensures !h.response.WorkspaceList? ==> h.response == Unanswered
  {
    match cluster.listed
    case None => Handled([ListPods], Unanswered)
    case Some(pods) =>
      var mine := OwnedBy(pods, login);
      if exists p :: p in mine && EnvValue(p.env, "REPO").None? then Handled([ListPods], Unanswered)
      else
        assert forall i :: 0 <= i < |mine| ==> mine[i] in mine;
        Handled([ListPods], WorkspaceList(login, seq(|mine|, i requires 0 <= i < |mine| =>
          ListEntry(EnvValue(mine[i].env, "REPO").value, Interpolate(mine[i].podIP), mine[i].name))))
  }
}
