# code-server-hub in Dafny

code-server-hub is a small Express server that gives each signed-in GitHub user
one Kubernetes pod per repository running code-server, and proxies requests
to that pod. A workspace is addressed by a host label that encodes the pod's
IP: `10-0-0-5.hub.example` stands for `10.0.0.5`, port 8080, and
`10-0-0-5-3000.hub.example` names the port explicitly. The hub keeps two
in-memory stores. `store.tokens` maps session tokens to a GitHub login and an
issue time. `store.pods` maps pod IPs to their last activity. Every 30
seconds a reaper deletes the pods idle for more than an hour.

This project models:

- the host-label codec: `getIpFromHost` and the encoder that builds workspace URLs (`AddressCodec`);
- the session check and the GitHub login allow-list (`Sessions`);
- the Kubernetes side (`Kube`): the pods the hub lists, the outcomes of the
  API calls it makes, `deletePod` against `safeDeletePod`, and the manifest
  `createPod` submits;
- one reaper cycle, `clearOldPods`, as a function of the activity ledger (`Reaper`);
- the request handlers and the process state (`App`): `/workspaces`,
  `/delete/:podName`, `/`, the catch-all route, the OAuth callback, the
  WebSocket router, and a class `Hub` holding both stores with
  `updatePodActive` and `clearOldPods` as methods that update them.

Time, `Math.random()`, the generated session token, the environment
variables and what Kubernetes answers are parameters. The cluster is a
snapshot value (`Kube.Cluster`): the pod list (or the error listing throws),
the pod names whose deletion fails, the log of each pod, and the answer to a
create call. A handler returns the Kubernetes calls it makes and its
response. The model assumes Express 4 on Node.js 16.9 or later started with
`--unhandled-rejections=warn`, so that an unhandled promise rejection only warns. Under that assumption a handler whose
promise rejects answers nothing (the response `Unanswered`), and the process
and its stores live on.

The model follows the code as written, including where it likely departs from what was intended:

- `updatePodActive` reassigns a `const` after seeding a missing entry. So the
  first activity for an IP stores the entry and then throws a TypeError. Under
  the runtime assumed above, the `/` and catch-all handlers then answer
  nothing, and a reaper cycle ends at that pod.
- A failed `deletePod` in the reaper ends the cycle. The remaining pods wait for the next cycle.
- A failed pod listing, a pod without a `REPO` entry, and a failed create
  call leave the request unanswered.
- WebSocket upgrades are routed without any session check and record no activity.
- There is no lock against two concurrent `/workspaces` requests creating two pods.
- An allow-list made of blanks (`" "`) is not empty: it admits only the login `" "`.

## Model

| member | source | states |
|---|---|---|
| AddressCodec.Decode | app.js:14-24 | a decoded IP is four digit runs joined by dots, and an explicit port is all digits |
| AddressCodec.ScanRuns | app.js:15-19 | a match of the regular expression yields exactly as many runs as it has groups |
| AddressCodec.DecodeFiveFields | app.js:14-18 | a host decodes to the first four fields joined by dots plus the fifth as the port exactly when it starts with five dash-separated digit runs and a dot |
| AddressCodec.DecodeFourFields | app.js:19-23 | a host decodes to four fields joined by dots with the default port exactly when it starts with four dash-separated digit runs and a dot |
| AddressCodec.DecodeNone | app.js:20-22 | decoding fails exactly when the host has neither label shape |
| AddressCodec.ShapesExclusive | app.js:15-19 | no host has both the 5-field and the 4-field shape, so the order of the two attempts decides nothing |
| AddressCodec.ScanSound | app.js:15 | what the scanner returns has the label shape and the requested field count |
| AddressCodec.ScanComplete | app.js:15 | the scanner finds every label shape with its field count (the greedy `\d*` has exactly one match) |
| AddressCodec.ScanPrefix | app.js:15-19 | scanning for more fields than a label has fails |
| AddressCodec.DigitRun | app.js:15 | `\d*` takes the longest run of digits at the start |
| AddressCodec.PortText | app.js:23 | the port text is the explicit fifth field or the decimal text of 8080 |
| AddressCodec.HostLabel | app.js:156 | the dashed IP fills the first DNS label (each dot of the IP a dash, every other character kept), then one dot, then the hub's hostname unchanged |
| AddressCodec.DashIp | app.js:156 | replacing every dot by a dash changes nothing else, position by position |
| AddressCodec.DashJoin | app.js:156 | dashing a dot-joined IP gives the dash-joined fields |
| AddressCodec.JoinInjective | app.js:17 | equal joins of digit fields have equal fields |
| AddressCodec.RoundTrip | app.js:156 | the host label built for a 4-octet IP decodes back to that IP and the default port |
| AddressCodec.DecodedIpNonEmpty | app.js:74 | a decoded IP is never empty (at least the three dots), so it is always truthy |
| JsValues.DecimalRoundTrip | app.js:23 | the decimal text of a number reads back to the number |
| Sessions.CheckLogin | app.js:26-33 | a login is returned exactly when the cookie's token (or the key "undefined") is stored and was issued no more than seven days ago, and it is the stored login |
| Sessions.SessionWindow | app.js:29 | a session is accepted up to and including 604800000 ms after issue and refused afterwards |
| Sessions.SessionExpiryMonotone | app.js:29 | a session accepted at some time was accepted with the same login at every earlier time |
| Sessions.Split | app.js:178 | `split(',')` gives at least one piece and no piece holds the separator |
| Sessions.SplitJoin | app.js:178 | joining the split pieces with the separator gives back the text |
| Sessions.NonEmpty | app.js:178 | `filter(Boolean)` keeps exactly the non-empty pieces |
| Sessions.SplitAllEmpty | app.js:178 | every piece is empty exactly when the text consists of separators only |
| Sessions.AllowListEmpty | app.js:178-179 | the allow-list is empty exactly when ALLOW_GITHUB_LOGINS is unset or only commas |
| Sessions.LoginAllowed | app.js:178-181 | a login passes exactly when ALLOW_GITHUB_LOGINS is unset or only commas, or the login is a non-empty listed entry |
| Sessions.AllowList | app.js:178 | the list holds exactly the non-empty comma-separated entries of ALLOW_GITHUB_LOGINS, none containing a comma |
| Kube.DeletePod | kube.js:20-22 | deletePod throws exactly when the API call fails |
| Kube.SafeDeletePod | kube.js:24-30 | safeDeletePod always completes normally |
| Kube.EnvIndex | app.js:105 | `env.find` picks the first entry with the name |
| Kube.EnvValue | app.js:105 | the value is undefined exactly when no entry has the name, else the first such entry's value |
| Kube.ParseSelector | kube.js:16 | a `key=value` selector splits at its first `=` |
| Kube.ParseSelectorComplete | kube.js:16 | any key without `=` and any value parse back from `key=value` |
| Kube.PodSelectorParses | kube.js:16 | the listing selects label `app` equal to `code-server` |
| Kube.PodNumber | kube.js:41 | the pod number is the floor of random times 1000000, below 1000000 |
| Kube.ServeLine | kube.js:86 | the line starts with `code-server`, carries `--home="HOME_URL"` exactly when HOME_URL is set, ends with no auth and the bind to 0.0.0.0:8080, and has no other text (its length is that of those pieces) |
| Kube.BindFlagPort | kube.js:86 | the bind port is the default port of a 4-field host label |
| Kube.Names | kube.js:105-131 | the names of the volumes (or mounts), in order, one per element |
| Kube.AddVolume | kube.js:108-131 | a push adds one volume and one mount to the first container at the end, and the manifest is otherwise unchanged: the rest of that container, the other containers, apiVersion, kind, metadata, tolerations and node selector |
| Kube.StartupScript | kube.js:77-88 | bash runs the setup lines and then, on the script's last line, the line that starts code-server |
| Kube.BasePod | kube.js:37-107 | the object literal: a v1 Pod with the matching label, name from the number, one container `runner` with port 3000/TCP, the workspace env, image, command, pull policy `Always`, privilege escalation allowed, requests 1 CPU / 2Gi and limits 2 CPU / 4Gi, and no volumes, tolerations or node selector |
| Kube.CreatePod | kube.js:36-140 | the manifest is a v1 Pod with the matching label, the name `code-server-` followed by the floor of random times 1000000, one container `runner` with port 3000/TCP, the workspace env, image and command, pull policy `Always`, privilege escalation allowed, requests 1 CPU / 2Gi and limits 2 CPU / 4Gi; its volumes are the v2ray config map when configured, then the host's `/var/run/docker.sock` unless disabled, mounted at `/etc/v2ray` and `/var/run/docker.sock` under the same names; with ALIYUN_VK it has the two virtual-kubelet tolerations and node selector, and otherwise neither |
| Kube.AddWorkspaceVolumes | kube.js:108-131 | starting from a manifest with no volumes, the two optional pushes leave exactly the v2ray and docker-sock volumes and mounts that apply, and nothing else of the manifest changes |
| Kube.WorkspaceMountsMatch | kube.js:108-131 | each volume createPod adds has one mount of the same name, in the same order: v2ray when configured, then docker-sock unless disabled |
| Kube.CreatedPodOwnership | kube.js:58-75 | the created pod's REPO, GH_USER, GH_TOKEN and TZ entries read back as the repository, the user and token ('' when undefined) and Asia/Shanghai |
| Reaper.Reap | app.js:49-62 | the loop keeps every existing ledger entry as it was and deletes at most one pod per listed pod |
| Reaper.ReapCycle | app.js:46-63 | a failed listing ends the cycle with no deletion and the ledger unchanged; otherwise what is deleted is a prefix of the idle pods |
| Reaper.IdleNames | app.js:49-58 | the names of the listed pods that have an entry and are idle |
| Reaper.IdleNamesAppend | app.js:49-58 | the idle names keep listing order: those of two listings in a row are the first's followed by the second's |
| Reaper.ReapDeletesIdlePrefix | app.js:49-62 | a cycle deletes a prefix of the idle pods in listing order, and all of them when it does not throw |
| Reaper.ReapLedger | app.js:50-54 | a cycle never removes or changes an entry: the ledger afterwards is the old one, or the old one plus the seed `now` for a listed pod without an entry, in which case the cycle threw |
| Reaper.ReapStopsAt | app.js:49-62 | at the first pod that has no entry or is idle with a failing deletion, the cycle has deleted exactly the idle pods before it, then seeds that pod's entry with `now` (no entry) or has also called deletePod on it (failed deletion), throws, and examines no later pod; the ledger is otherwise unchanged |
| Reaper.ReapStopsAtUnseen | app.js:51-54 | the first pod without an entry ends the cycle, and nothing after it is examined or deleted |
| Reaper.ReapComplete | app.js:49-62 | with every pod known and no failing deletion, a cycle deletes exactly the idle pods and leaves the ledger unchanged |
| Reaper.ReapThrows | app.js:48-62 | a cycle throws exactly when some listed pod has no entry, or is idle and its deletion fails |
| App.HomeRedirect | app.js:83 | as at lines 83, 147 and 197, the redirect goes to HOME_URL when it is set and non-empty, else to "/", never to an empty location |
| App.Target | app.js:75 | as also at lines 102 and 202, an explicit port is used as matched, the default port as 8080 |
| App.WsTarget | app.js:72-78 | the WebSocket goes to the decoded address, or to 127.0.0.1:3000 when the forwarded host does not decode |
| App.WsReachesWorkspace | app.js:72-78 | a WebSocket to a workspace host label reaches that IP on port 8080 |
| App.WsWithoutHeader | app.js:73 | a missing X-Forwarded-Host header goes to the fallback |
| App.MarkerTest | app.js:155 | the readiness test holds exactly when the log contains the marker at some position |
| App.StartupLogIsReady | app.js:155 | a log holding code-server's line `HTTP server listening on` is ready |
| App.OwnedBy | app.js:150 | the filter keeps exactly the pods whose GH_USER is the user, never more than were listed |
| App.OwnedByAppend | app.js:150 | the filter keeps listing order: the owned pods of two listings in a row are the first's followed by the second's |
| App.SelectWorkspace | app.js:151 | the first pod whose REPO is the repository is selected, with all earlier REPOs present and different; no match exactly when every REPO is present and different |
| App.SelectsFirstListed | app.js:150-151 | the selected pod is the first listed pod with both the user and the repository |
| App.CreatedWorkspaceIsFound | app.js:150-166 | a pod created because none of the user's pods matched the repository is the one the next request for that user and repository opens, wherever the listing places it |
| App.Readiness | app.js:153-162 | a URL exactly when the log is ready and the pod has an IP; the caught TypeError message when the log is ready and the pod has no IP; the logs (or the waiting text when empty) exactly when not ready; the error message when reading the log fails |
| App.Workspaces | app.js:144-168 | no session redirects to HOME_URL or "/" with no calls; otherwise the pods are listed; a failed listing or a missing REPO entry makes no further call; a create call is made exactly when no pod matches; a found pod answers from its log; an unanswered request exactly when listing fails, a REPO entry is missing, or creating fails |
| App.WorkspacesCreatesAtMostOnce | app.js:163-166 | a request asks for at most one new pod |
| App.WorkspaceUrlRoutesBack | app.js:156 | the URL handed out for a ready pod has a host that decodes to the pod's IP and port 8080 |
| App.FindByName | app.js:86 | the pod found has the name, and none is found exactly when no pod has it |
| App.DeleteWorkspace | app.js:81-92 | no session redirects; an unknown name answers 404; a known name is deleted and the page confirms whatever the deletion did |
| App.DeleteIgnoresOwner | app.js:81-92 | any two signed-in users get the same answer and cause the same deletion |
| App.ListWorkspaces | app.js:105-111 | the list answers exactly when the listing succeeds and each of the user's pods has a REPO entry, with one entry per pod in order giving its repository, IP ("undefined" when unset) and name |
| App.Hub.UpdatePodActive | app.js:35-44 | the entry for the IP becomes the current time, and the call throws exactly when there was none |
| App.Hub.ClearOldPods | app.js:46-63 | the loop ends in the ledger, the deletions and the throw of one reaper cycle over the listing |
| App.Hub.Root | app.js:94-111 | no session answers the login link; a workspace host records activity and is proxied to unless that first activity threw; any other host lists the user's workspaces |
| App.Hub.CatchAll | app.js:195-206 | no session redirects; a workspace host records activity and is proxied to unless that first activity threw; any other host answers 404 |
| App.Hub.OauthGithub | app.js:170-193 | a missing code answers 401, a GitHub failure 500, and a refused login 403, each storing nothing; an allowed login stores a session under the new token that checks as that login for seven days |

## Left out

- The runtime's handling of unhandled promise rejections: the model assumes Express 4 on Node.js 16.9 or later with `--unhandled-rejections=warn`. Without that flag Node.js 15 and later exit the process, which would lose both in-memory stores, and Express 5 would answer 500; neither is modelled.
- The text of the TypeError for a pod without an IP (`NO_IP_ERROR`) is the one V8 gives from Node.js 16.9 on; older engines word it "Cannot read property 'replace' of undefined", and the model fixes the newer wording.
- HTTP itself: the proxy forwarding, cookie parsing and setting, `nocache`, the HTML and script text of `/` beyond its entries, and Express route matching. Handlers take the request fields they read.
- The pod start time on `/` (formatted with `moment`): it is not shown in `ListEntry`.
- `decodeURIComponent` of the `repo` query: the model takes the decoded text and does not model a malformed escape that throws.
- github.js (`requestAccessToken`, `getUserInfo`) is not part of this model. Their outcome is the `Identity` parameter.
- Kubernetes is a snapshot: the answers of the real API calls, namespaces, and a cluster that changes between the calls of one request are not modelled.
- `setInterval`, concurrency and interleaving between requests and reaper cycles are not modelled: each handler and each cycle is one atomic step with one time `now`.
- `Math.random()` is a real parameter in [0, 1). Floating-point rounding of the product is not modelled.
- `UUID()` is the `token` parameter. Its uniqueness is not modelled: an existing token would be overwritten.
- store.js is not part of this model. The stores are plain maps, and prototype keys such as `__proto__` are not modelled.
- The reaper's log lines and other `console` output.
- Kube.Pod: a listed pod is assumed to carry an `env` array on its first container whose entries all have a string `value`. The listing returns any pod labelled `app=code-server`, not only those the hub creates; a pod without `env` would make `env.find` throw at app.js:105 and app.js:150, and an entry without `value` would read as undefined, and neither case is representable in the model.
- `findRunningPods` is modelled by its result only. The `app=code-server` selector is checked against the labels `createPod` writes, but the server-side filtering is not modelled.
