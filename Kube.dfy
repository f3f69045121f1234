// kube.js: the pods the hub sees, the outcomes of the Kubernetes API calls it
// makes, and the manifest createPod submits.
module Kube {
  import opened JsValues
  import AddressCodec

  datatype EnvVar = EnvVar(name: string, value: string)

  /** A pod as findRunningPods lists it: `metadata.name`, `status.podIP`
      (unset while the pod is being scheduled) and the environment of
      `spec.containers[0]`. */
  datatype Pod = Pod(name: string, podIP: JsString, env: seq<EnvVar>)

  /** What getPodLog gives for a pod: its log text, or the message of the
      error the API call threw. */
  datatype LogReply = LogText(text: string) | LogFailed(message: string)

  /** What createNamespacedPod answers: a body whose `metadata.name` may be
      missing, or an error. */
  datatype CreateReply = CreatedBody(name: JsString) | CreateFailed

  /** The cluster as the hub observes it at one moment: the answer of
      findRunningPods (None when the list call throws), the pod names whose
      deleteNamespacedPod call throws, getPodLog per pod name, and the answer
      to a createNamespacedPod call. */
  datatype Cluster = Cluster(
    listed: Option<seq<Pod>>,
    deleteFails: set<string>,
    readLog: string -> LogReply,
    createReply: CreateReply
  )

  /** How an awaited call ends: normally, or by throwing. */
  datatype Completion = Normal | Threw

  /** deletePod: the API call's error propagates to the caller. */
  function DeletePod(cluster: Cluster, name: string): (c: Completion)
    ensures c == Threw <==> name in cluster.deleteFails
  {
    if name in cluster.deleteFails then Threw else Normal
  }

  /** safeDeletePod: calls deletePod and swallows whatever it throws. */
  function SafeDeletePod(cluster: Cluster, name: string): (c: Completion)
    ensures c == Normal
  {
    match DeletePod(cluster, name)
    case Normal => Normal
    case Threw => Normal
  }

  /** The position of the first entry named `name`, or |env| if none is. */
  function EnvIndex(env: seq<EnvVar>, name: string): (i: nat)
    ensures i <= |env|
    ensures forall j :: 0 <= j < i ==> env[j].name != name
    ensures i < |env| ==> env[i].name == name
  {
    if env == [] || env[0].name == name then 0 else 1 + EnvIndex(env[1..], name)
  }

  /** `env.find(e => e.name === name)?.value`: the value of the first entry
      with that name. */
  function EnvValue(env: seq<EnvVar>, name: string): (v: JsString)
    ensures v.None? <==> forall i :: 0 <= i < |env| ==> env[i].name != name
    ensures v.Some? ==> EnvIndex(env, name) < |env| && v.value == env[EnvIndex(env, name)].value
  {
    var i := EnvIndex(env, name);
    if i < |env| then Some(env[i].value) else None
  }

  // ---------------------------------------------------------------------
  // Label selector

  /** The label selector findRunningPods lists by. */
  const POD_SELECTOR: string := "app=code-server"

  /** A `key=value` equality selector split at its first `=`. */
  function ParseSelector(sel: string): (r: Option<(string, string)>)
    ensures r.Some? ==> sel == r.value.0 + "=" + r.value.1 && '=' !in r.value.0
    ensures r.None? ==> '=' !in sel
  {
    if sel == [] then None
    else if sel[0] == '=' then Some(("", sel[1..]))
    else match ParseSelector(sel[1..])
      case Some((k, v)) => Some(([sel[0]] + k, v))
      case None => None
  }

  /** A selector `key=value` whose key has no `=` parses into that key and
      value. */
  lemma {:induction false} ParseSelectorComplete(key: string, value: string)
    requires '=' !in key
    ensures ParseSelector(key + "=" + value) == Some((key, value))
  {
    if key != [] {
      ParseSelectorComplete(key[1..], value);
      var sel := key + "=" + value;
      assert sel[0] == key[0] && sel[0] != '=';
      assert sel[1..] == key[1..] + "=" + value;
      assert [key[0]] + key[1..] == key;
    } else {
      assert (key + "=" + value)[1..] == value;
    }
  }

  /** The selector findRunningPods lists by asks for the label `app` to be
      `code-server`. */
  lemma PodSelectorParses()
    ensures ParseSelector(POD_SELECTOR) == Some(("app", "code-server"))
  {
    assert POD_SELECTOR == "app" + "=" + "code-server";
    ParseSelectorComplete("app", "code-server");
  }

  predicate SelectorMatches(sel: string, labels: map<string, string>)
  {
    match ParseSelector(sel)
    case Some((k, v)) => k in labels && labels[k] == v
    case None => false
  }

  // ---------------------------------------------------------------------
  // The pod manifest

  datatype ContainerPort = ContainerPort(name: string, containerPort: nat, protocol: string)
  datatype VolumeMount = VolumeMount(name: string, mountPath: string)
  datatype VolumeSource = ConfigMap(configMapName: string) | HostPath(path: string)
  datatype Volume = Volume(name: string, source: VolumeSource)
  datatype Amounts = Amounts(cpu: string, memory: string)
  datatype Container = Container(
    name: string,
    image: string,
    ports: seq<ContainerPort>,
    env: seq<EnvVar>,
    imagePullPolicy: string,
    command: seq<string>,
    allowPrivilegeEscalation: bool,
    volumeMounts: seq<VolumeMount>,
    requests: Amounts,
    limits: Amounts
  )
  /** A toleration entry; each of the two the source writes sets one field. */
  datatype Toleration = Toleration(key: JsString, operator: JsString)
  datatype Metadata = Metadata(name: string, labels: map<string, string>)
  datatype PodSpec = PodSpec(
    containers: seq<Container>,
    volumes: seq<Volume>,
    tolerations: Option<seq<Toleration>>,
    nodeSelector: Option<map<string, string>>
  )
  datatype Manifest = Manifest(apiVersion: string, kind: string, metadata: Metadata, spec: PodSpec)

  const DEFAULT_IMAGE: string := "wangsijie/code-server"

  /** The number in a new pod's name: `Math.floor(Math.random() * 1000000)`
      for a `random` in [0, 1). */
  function PodNumber(random: real): (n: nat)
    requires 0.0 <= random < 1.0
    ensures n < 1000000
    ensures n as real <= random * 1000000.0 < n as real + 1.0
  {
    (random * 1000000.0).Floor
  }

  /** The shell lines that prepare the workspace before code-server starts. */
  const SETUP_LINES: seq<string> := [
    "mkdir -p /workspace",
    "source proxy.sh",
    "cd /workspace",
    "git config --global credential.helper '!f() { printf \"%s\\n\" \"username=$GH_USER\" \"password=$GH_TOKEN\"; };f'",
    "git clone https://github.com/${REPO} /workspace"
  ]

  /** The pieces of the startup script's last line. */
  const SERVE_COMMAND: string := "code-server"
  const HOME_FLAG: string := " --home="
  const AUTH_FLAG: string := " --auth=\"none\""
  const BIND_FLAG: string := " --bind-addr=\"0.0.0.0:8080\" /workspace"

  predicate IsSuffix(p: string, s: string)
  {
    |p| <= |s| && s[|s| - |p|..] == p
  }

  /** The line that starts code-server: with `--home` only when HOME_URL is
      set, and always bound to all interfaces on port 8080. */
  function ServeLine(homeUrl: JsString): (line: string)
    ensures IsPrefix(SERVE_COMMAND, line)
    ensures IsSuffix(AUTH_FLAG + BIND_FLAG, line)
    ensures |line| == |SERVE_COMMAND| + (if Truthy(homeUrl) then |HOME_FLAG| + |homeUrl.value| + 2 else 0) + |AUTH_FLAG + BIND_FLAG|
    ensures IsPrefix(SERVE_COMMAND + HOME_FLAG, line) <==> Truthy(homeUrl)
    ensures Truthy(homeUrl) ==> IsPrefix(SERVE_COMMAND + HOME_FLAG + "\"" + homeUrl.value + "\"", line)
  {
    var tail := AUTH_FLAG + BIND_FLAG;
    if Truthy(homeUrl) then
      var head := SERVE_COMMAND + HOME_FLAG + "\"" + homeUrl.value + "\"";
      assert (head + tail)[..|SERVE_COMMAND + HOME_FLAG|] == SERVE_COMMAND + HOME_FLAG;
      head + tail
    else
      var line := SERVE_COMMAND + tail;
      assert line[|SERVE_COMMAND| + 3] == AUTH_FLAG[3] == 'a';
      assert (SERVE_COMMAND + HOME_FLAG)[|SERVE_COMMAND| + 3] == HOME_FLAG[3] == 'h';
      line
  }

  /** The bind flag names the port that a 4-field host label implies, so the
      URL the hub hands out reaches code-server. */
  lemma BindFlagPort()
    ensures BIND_FLAG == " --bind-addr=\"0.0.0.0:" + DecimalString(AddressCodec.DEFAULT_PORT) + "\" /workspace"
  {
    AddressCodec.DefaultPortText();
  }

  /** The `name` of every element, in order. */
  function Names<T>(xs: seq<T>, name: T -> string): (names: seq<string>)
    ensures |names| == |xs|
    ensures forall i :: 0 <= i < |xs| ==> names[i] == name(xs[i])
  {
    if xs == [] then [] else [name(xs[0])] + Names(xs[1..], name)
  }

  lemma NamesSnoc<T>(xs: seq<T>, x: T, name: T -> string)
    ensures Names(xs + [x], name) == Names(xs, name) + [name(x)]
  {
  }

  function VolumeName(v: Volume): string { v.name }
  function MountName(m: VolumeMount): string { m.name }

  /** `pod.spec.volumes.push(v); pod.spec.containers[0].volumeMounts.push(m)` */
  function AddVolume(pod: Manifest, v: Volume, m: VolumeMount): (r: Manifest)
    requires |pod.spec.containers| >= 1
    ensures r.spec.volumes == pod.spec.volumes + [v]
    ensures |r.spec.containers| == |pod.spec.containers|
    ensures r.spec.containers[0] == pod.spec.containers[0].(volumeMounts := pod.spec.containers[0].volumeMounts + [m])
    ensures r.spec.containers[1..] == pod.spec.containers[1..]
    ensures r.apiVersion == pod.apiVersion && r.kind == pod.kind && r.metadata == pod.metadata
    ensures r.spec.tolerations == pod.spec.tolerations && r.spec.nodeSelector == pod.spec.nodeSelector
  {
    var c := pod.spec.containers[0];
    var c' := c.(volumeMounts := c.volumeMounts + [m]);
    pod.(spec := pod.spec.(volumes := pod.spec.volumes + [v], containers := pod.spec.containers[0 := c']))
  }

  /** The environment createPod gives the container. */
  function WorkspaceEnv(repo: string, user: JsString, token: JsString): seq<EnvVar>
  {
    [
      EnvVar("REPO", repo),
      EnvVar("GH_USER", WithDefault(user, "")),
      EnvVar("GH_TOKEN", WithDefault(token, "")),
      EnvVar("TZ", "Asia/Shanghai")
    ]
  }

  /** The startup command of the container. */
  function StartupCommand(homeUrl: JsString): seq<string>
  {
    ["/bin/bash", "-c", Join(SETUP_LINES + [ServeLine(homeUrl)], '\n')]
  }

  /** bash runs a script made of the setup lines followed, on its last line,
      by the line that starts code-server. */
  lemma StartupScript(homeUrl: JsString)
    ensures var command := StartupCommand(homeUrl);
      && |command| == 3 && command[0] == "/bin/bash" && command[1] == "-c"
      && command[2] == Join(SETUP_LINES, '\n') + "\n" + ServeLine(homeUrl)
  {
    JoinSnoc(SETUP_LINES, ServeLine(homeUrl), '\n');
  }

  /** The object literal createPod starts from, before any volume is added. */
  function BasePod(repo: string, user: JsString, token: JsString, env: ProcessEnv, number: nat): (pod: Manifest)
    ensures pod.apiVersion == "v1" && pod.kind == "Pod"
    ensures SelectorMatches(POD_SELECTOR, pod.metadata.labels)
    ensures pod.metadata.name == "code-server-" + DecimalString(number)
    ensures |pod.spec.containers| == 1
    ensures pod.spec.containers[0].ports == [ContainerPort("port", 3000, "TCP")]
    ensures pod.spec.containers[0].name == "runner" && pod.spec.containers[0].imagePullPolicy == "Always"
    ensures pod.spec.containers[0].allowPrivilegeEscalation
    ensures pod.spec.containers[0].requests == Amounts("1", "2Gi") && pod.spec.containers[0].limits == Amounts("2", "4Gi")
    ensures pod.spec.containers[0].env == WorkspaceEnv(repo, user, token)
    ensures pod.spec.containers[0].image == Or(env.imageUrl, DEFAULT_IMAGE)
    ensures pod.spec.containers[0].command == StartupCommand(env.homeUrl)
    ensures pod.spec.volumes == [] && pod.spec.containers[0].volumeMounts == []
    ensures pod.spec.tolerations.None? && pod.spec.nodeSelector.None?
  {
    PodSelectorParses();
    var runner := Container(
      "runner",
      Or(env.imageUrl, DEFAULT_IMAGE),
      [ContainerPort("port", 3000, "TCP")],
      WorkspaceEnv(repo, user, token),
      "Always",
      StartupCommand(env.homeUrl),
      true,
      [],
      Amounts("1", "2Gi"),
      Amounts("2", "4Gi")
    );
    Manifest(
      "v1",
      "Pod",
      Metadata("code-server-" + DecimalString(number), map["app" := "code-server"]),
      PodSpec([runner], [], None, None)
    )
  }

  /** The volumes createPod adds: the v2ray config map when one is named,
      then the host's Docker socket unless DISABLE_DOCKER is set. */
  function WorkspaceVolumes(v2rayConfigMap: JsString, disableDocker: JsString): seq<Volume>
  {
    (if Truthy(v2rayConfigMap) then [Volume("v2ray", ConfigMap(v2rayConfigMap.value))] else [])
    + (if Truthy(disableDocker) then [] else [Volume("docker-sock", HostPath("/var/run/docker.sock"))])
  }

  /** Where the runner container mounts each of those volumes. */
  function WorkspaceMounts(v2rayConfigMap: JsString, disableDocker: JsString): seq<VolumeMount>
  {
    (if Truthy(v2rayConfigMap) then [VolumeMount("v2ray", "/etc/v2ray")] else [])
    + (if Truthy(disableDocker) then [] else [VolumeMount("docker-sock", "/var/run/docker.sock")])
  }

  /** The tolerations that let the pod run on Alibaba Cloud's virtual kubelet. */
  const VK_TOLERATIONS: seq<Toleration> :=
    [Toleration(Some("virtual-kubelet.io/provider"), None), Toleration(None, Some("Exists"))]

  /** Every volume is mounted under its own name, one mount per volume and in
      the same order. */
  lemma {:induction false} WorkspaceMountsMatch(v2rayConfigMap: JsString, disableDocker: JsString)
    ensures Names(WorkspaceVolumes(v2rayConfigMap, disableDocker), VolumeName)
            == Names(WorkspaceMounts(v2rayConfigMap, disableDocker), MountName)
            == (if Truthy(v2rayConfigMap) then ["v2ray"] else []) + (if Truthy(disableDocker) then [] else ["docker-sock"])
  {
    var vs := if Truthy(v2rayConfigMap) then [Volume("v2ray", ConfigMap(v2rayConfigMap.value))] else [];
    var ms := if Truthy(v2rayConfigMap) then [VolumeMount("v2ray", "/etc/v2ray")] else [];
    if !Truthy(disableDocker) {
      NamesSnoc(vs, Volume("docker-sock", HostPath("/var/run/docker.sock")), VolumeName);
      NamesSnoc(ms, VolumeMount("docker-sock", "/var/run/docker.sock"), MountName);
    }
  }

  /** The two optional pushes of createPod: the v2ray config map when one is
      named, then the Docker socket unless DISABLE_DOCKER is set, each as a
      volume and as a mount of the runner container. */
  method AddWorkspaceVolumes(pod: Manifest, v2rayConfigMap: JsString, disableDocker: JsString) returns (r: Manifest)
    requires |pod.spec.containers| >= 1
    requires pod.spec.volumes == [] && pod.spec.containers[0].volumeMounts == []
    ensures r == pod.(spec := pod.spec.(
      volumes := WorkspaceVolumes(v2rayConfigMap, disableDocker),
      containers := pod.spec.containers[0 := pod.spec.containers[0].(volumeMounts := WorkspaceMounts(v2rayConfigMap, disableDocker))]))
  {
    r := pod;
    if Truthy(v2rayConfigMap) {
      r := AddVolume(r, Volume("v2ray", ConfigMap(v2rayConfigMap.value)), VolumeMount("v2ray", "/etc/v2ray"));
    }
    if !Truthy(disableDocker) {
      r := AddVolume(r, Volume("docker-sock", HostPath("/var/run/docker.sock")), VolumeMount("docker-sock", "/var/run/docker.sock"));
    }
    var c := pod.spec.containers[0].(volumeMounts := WorkspaceMounts(v2rayConfigMap, disableDocker));
    assert r.spec.containers[0] == c;
    assert r.spec.containers == [c] + pod.spec.containers[1..] == pod.spec.containers[0 := c];
  }

  /** createPod: the manifest of a new workspace pod for `repo`, owned by
      `user` and cloning with `token` (both default to '' when undefined).
      HOME_URL, DISABLE_DOCKER, ALIYUN_VK and IMAGE_URL come from `env`,
      Math.random() is `random`. */
  method CreatePod(repo: string, user: JsString, token: JsString, v2rayConfigMap: JsString,
                   env: ProcessEnv, random: real) returns (pod: Manifest)
    requires 0.0 <= random < 1.0
    ensures pod.apiVersion == "v1" && pod.kind == "Pod"
    ensures SelectorMatches(POD_SELECTOR, pod.metadata.labels)
    ensures pod.metadata.name == "code-server-" + DecimalString(PodNumber(random))
    ensures |pod.spec.containers| == 1
    ensures pod.spec.containers[0].ports == [ContainerPort("port", 3000, "TCP")]
    ensures pod.spec.containers[0].name == "runner" && pod.spec.containers[0].imagePullPolicy == "Always"
    ensures pod.spec.containers[0].allowPrivilegeEscalation
    ensures pod.spec.containers[0].requests == Amounts("1", "2Gi") && pod.spec.containers[0].limits == Amounts("2", "4Gi")
    ensures pod.spec.containers[0].env == WorkspaceEnv(repo, user, token)
    ensures pod.spec.containers[0].image == Or(env.imageUrl, DEFAULT_IMAGE)
    ensures pod.spec.containers[0].command == StartupCommand(env.homeUrl)
    ensures pod.spec.volumes == WorkspaceVolumes(v2rayConfigMap, env.disableDocker)
    ensures pod.spec.containers[0].volumeMounts == WorkspaceMounts(v2rayConfigMap, env.disableDocker)
    ensures Names(pod.spec.volumes, VolumeName) == Names(pod.spec.containers[0].volumeMounts, MountName)
    ensures pod.spec.tolerations == if Truthy(env.aliyunVk) then Some(VK_TOLERATIONS) else None
    ensures pod.spec.nodeSelector == if Truthy(env.aliyunVk) then Some(map["type" := "virtual-kubelet"]) else None
  {
    var number := PodNumber(random);
    pod := BasePod(repo, user, token, env, number);
    pod := AddWorkspaceVolumes(pod, v2rayConfigMap, env.disableDocker);
    WorkspaceMountsMatch(v2rayConfigMap, env.disableDocker);
    if Truthy(env.aliyunVk) {
      pod := pod.(spec := pod.spec.(tolerations := Some(VK_TOLERATIONS), nodeSelector := Some(map["type" := "virtual-kubelet"])));
    }
  }

  /** The pod a listing returns once the manifest is running: the hub reads
      its owner and repository back from the environment createPod wrote, and
      the clone runs with the token ('' when none was given) in the
      Asia/Shanghai time zone. */
  lemma CreatedPodOwnership(repo: string, user: JsString, token: JsString)
    ensures EnvValue(WorkspaceEnv(repo, user, token), "REPO") == Some(repo)
    ensures EnvValue(WorkspaceEnv(repo, user, token), "GH_USER") == Some(WithDefault(user, ""))
    ensures EnvValue(WorkspaceEnv(repo, user, token), "GH_TOKEN") == Some(WithDefault(token, ""))
    ensures EnvValue(WorkspaceEnv(repo, user, token), "TZ") == Some("Asia/Shanghai")
  {
    var env := WorkspaceEnv(repo, user, token);
    assert EnvIndex(env, "REPO") == 0;
    assert EnvIndex(env[1..], "GH_USER") == 0;
    assert EnvIndex(env[2..], "GH_TOKEN") == 0;
    assert EnvIndex(env[3..], "TZ") == 0;
  }
}
