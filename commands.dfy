/**
 * The commands the modelled code issues, as values, with the exact command
 * line of each (`Text`) and the message a failure of it is reported under
 * (`Label`). Commands run through `bash -c S` have S as their text; commands
 * given as an argument list have the arguments joined by single spaces.
 */
module Commands {
  import opened Strings

  /** The `edgecore.yaml` settings `runStartEdgecore` rewrites with `sed`. */
  datatype EdgecoreField = Token | RemoteImageEndpoint | RemoteRuntimeEndpoint | ContainerRuntime | HttpServer | Server

  datatype Command =
    // preProcess
    | WaitControlPlane(clusterName: string)
    | PatchKubeProxy
    // startCloudcoreWithKeadm / startCloudcore / getToken
    | KeadmInit(advertiseAddress: string)
    | CreateNamespace
    | CreateCrd(crd: string)
    | CloudcoreDefaultConfig
    | SetKubeConfig
    | DisableIptablesManager
    | StartCloudcoreService
    | ReadToken
    // stopKubelet / waitNodeReady
    | StopKubeletService
    | DeleteNode(name: string)
    | WaitNodeListed(name: string)
    | WaitReady(name: string)
    // runStartEdgecore / runStartEdgecoreWithKeadm
    | EdgecoreDefaultConfig
    | EdgecoreSet(field: EdgecoreField, value: string)
    | SetMqttMode
    | FixResolv
    | StartEdgecoreService
    | RemoveKubeEdgeDir
    | KeadmJoin(ip: string, token: string)
    // buildImage, inside the build container
    | MakeDir(parents: bool, dir: string)
    | MakeExecutable(path: string)
    | ChownRoot(path: string)
    // createBuildContainer / buildImage, on the host
    | PullImage(image: string, platform: string)
    | RunBuildContainer(image: string, name: string, platform: string)
    | CopyIn(source: string, container: string, dest: string)
    | Commit(container: string, image: string)
    | RemoveContainer(container: string)

  const AdminConf: string := "/etc/kubernetes/admin.conf"
  const CloudcoreConfig: string := "/etc/kubeedge/config/cloudcore.yaml"
  const EdgecoreConfig: string := "/etc/kubeedge/config/edgecore.yaml"
  const CrdDir: string := "/etc/kubeedge/crds/"
  const ContainerdSocket: string := "unix:///var/run/containerd/containerd.sock"
  const CertPortFlag: string := "--certport 30002"

  /** Keep kube-proxy off nodes labelled `node-role.kubernetes.io/edge`. */
  const KubeProxyPatch: string :=
    "kubectl patch daemonset kube-proxy -n kube-system -p '{\"spec\": {\"template\": {\"spec\": {\"affinity\": {\"nodeAffinity\": {\"requiredDuringSchedulingIgnoredDuringExecution\": {\"nodeSelectorTerms\": [{\"matchExpressions\": [{\"key\": \"node-role.kubernetes.io/edge\", \"operator\": \"DoesNotExist\"}]}]}}}}}}}'"

  /** The `sed` pattern of the `edgecore.yaml` line each setting rewrites. */
  function FieldPattern(f: EdgecoreField): string
  {
    match f
    case Token => "token: .*"
    case RemoteImageEndpoint => "remoteImageEndpoint: .*"
    case RemoteRuntimeEndpoint => "remoteRuntimeEndpoint: .*"
    case ContainerRuntime => "containerRuntime: .*"
    case HttpServer => "httpServer: .*"
    case Server => "server: .*10000"
  }

  function FieldKey(f: EdgecoreField): string
  {
    match f
    case Token => "token"
    case RemoteImageEndpoint => "remoteImageEndpoint"
    case RemoteRuntimeEndpoint => "remoteRuntimeEndpoint"
    case ContainerRuntime => "containerRuntime"
    case HttpServer => "httpServer"
    case Server => "server"
  }

  /** `sed -i -e "s|<pattern>|<key>: ` -- what comes before the value in an edgecore edit. */
  function SedHead(f: EdgecoreField): string
  {
    "sed -i -e \"s|" + FieldPattern(f) + "|" + FieldKey(f) + ": "
  }

  /** `|g" <edgecore configuration>` -- what comes after the value in an edgecore edit. */
  function SedTail(): string
  {
    "|g\" " + EdgecoreConfig
  }

  /** The web socket address edgecore is pointed at. */
  function HttpServerAddress(ip: string): string
  {
    "https://" + ip + ":10002"
  }

  /** The server address edgecore is pointed at. */
  function ServerAddress(ip: string): string
  {
    ip + ":10000"
  }

  /** The cloudcore address `keadm join` is given. */
  function CloudcoreIpPort(ip: string): string
  {
    ip + ":30000"
  }

  /** What follows the token in `keadm join`: the runtime socket, the runtime type, no MQTT broker. */
  function JoinTail(): string
  {
    " --remote-runtime-endpoint " + ContainerdSocket + " --runtimetype remote --with-mqtt=false"
  }

  const CommitEntrypoint: string := "ENTRYPOINT [ \"/usr/local/bin/entrypoint\", \"/sbin/init\" ]"

  /** The command line as issued. */
  function Text(c: Command): string
  {
    match c
    case WaitControlPlane(name) => "kubectl wait --for=condition=Ready node/" + name + "-control-plane --timeout=180s"
    case PatchKubeProxy => KubeProxyPatch
    case KeadmInit(address) =>
      "keadm init --advertise-address=" + address
        + " --profile version=v1.12.0 --kube-config " + AdminConf + " --set cloudCore.hostNetWork=false"
    case CreateNamespace => "kubectl create ns kubeedge"
    case CreateCrd(crd) => "kubectl create -f " + CrdDir + crd
    case CloudcoreDefaultConfig => "cloudcore --defaultconfig >  " + CloudcoreConfig
    case SetKubeConfig => "sed -i -e \"s|kubeConfig: .*|kubeConfig: " + AdminConf + "|g\" " + CloudcoreConfig
    case DisableIptablesManager => "sed -i '/iptablesManager:/{n;s/true/false/;}' " + CloudcoreConfig
    case StartCloudcoreService => "systemctl daemon-reload && systemctl enable cloudcore && systemctl start cloudcore"
    case ReadToken => "kubectl get secret -nkubeedge tokensecret -o=jsonpath='{.data.tokendata}' | base64 -d"
    case StopKubeletService =>
      "systemctl stop kubelet.service && systemctl disable kubelet.service && rm /etc/systemd/system/kubelet.service"
    case DeleteNode(name) => "kubectl delete node " + name + " --wait"
    case WaitNodeListed(name) => "while true; do sleep 3; kubectl get nodes | grep " + name + " && break; done"
    case WaitReady(name) => "kubectl wait --for=condition=Ready node/" + name + " --timeout=120s"
    case EdgecoreDefaultConfig => "edgecore --defaultconfig > " + EdgecoreConfig
    case EdgecoreSet(f, value) => SedHead(f) + value + SedTail()
    case SetMqttMode => "sed -i -e \"s|mqttMode: .*|mqttMode: 0|g\" " + EdgecoreConfig
    case FixResolv => "sed -i -e \"s|/tmp/etc/resolv|/etc/resolv|g\" " + EdgecoreConfig
    case StartEdgecoreService => "systemctl daemon-reload && systemctl enable edgecore && systemctl start edgecore"
    case RemoveKubeEdgeDir => "rm -rf /etc/kubeedge"
    case KeadmJoin(ip, token) =>
      "keadm join --cloudcore-ipport " + CloudcoreIpPort(ip) + " " + CertPortFlag + " --token " + token + JoinTail()
    case MakeDir(parents, dir) => if parents then "mkdir -p " + dir else "mkdir " + dir
    case MakeExecutable(path) => "chmod +x " + path
    case ChownRoot(path) => "chown root:root " + path
    case PullImage(image, platform) => "docker pull --platform=" + platform + " " + image
    case RunBuildContainer(image, name, platform) =>
      "docker run -d --entrypoint=sleep --name=" + name + " --platform=" + platform + " " + image + " infinity"
    case CopyIn(source, container, dest) => "docker cp " + source + " " + container + ":" + dest
    case Commit(container, image) => "docker commit --change " + CommitEntrypoint + " " + container + " " + image
    case RemoveContainer(container) => "docker rm -f -v " + container
  }

  /**
   * The message a failure of the command is reported under, innermost, by
   * the code that issues it; empty for the image-build commands, whose
   * errors are returned as they are.
   */
  function Label(c: Command): string
  {
    match c
    case WaitControlPlane(_) => "failed to wait the control-plane ready"
    case PatchKubeProxy => "failed to stop daemonset kube-proxy scheduled to the edge nodes"
    case KeadmInit(_) => "failed to keadm init"
    case CreateNamespace => "failed to create ns kubeedge"
    case CreateCrd(crd) => "failed to create CRD " + crd
    case CloudcoreDefaultConfig => "failed to generate cloudcore config"
    case SetKubeConfig => "failed to modify kubeconfig"
    case DisableIptablesManager => "failed to modify kubeconfig"
    case StartCloudcoreService => "failed to start cloudcore"
    case ReadToken => "failed to get tokensecret"
    case StopKubeletService => "failed to stop kubelet"
    case DeleteNode(_) => "failed to delete node"
    case WaitNodeListed(_) => "node not exist"
    case WaitReady(_) => "failed to wait node Ready"
    case EdgecoreDefaultConfig => "failed to generate cloudcore config"
    case EdgecoreSet(f, _) => (
      match f
      case Token => "failed to modify token"
      case RemoteImageEndpoint => "failed to modify remoteImageEndpoint"
      case RemoteRuntimeEndpoint => "failed to modify remoteRuntimeEndpoint"
      case ContainerRuntime => "failed to modify containerRuntime to remote"
      case HttpServer => "failed to modify httpServer"
      case Server => "failed to modify httpServer")
    case SetMqttMode => "failed to modify mqttMode"
    case FixResolv => "failed to modify resolv"
    case StartEdgecoreService => "failed to start cloudcore"
    case RemoveKubeEdgeDir => "failed to cleanup directory /etc/kubeedge"
    case KeadmJoin(_, _) => "failed to join edge"
    case _ => ""
  }

  // ---- which values the command lines carry ----

  /** Every edgecore edit carries the value it writes. */
  lemma EdgecoreSetEmbeds(f: EdgecoreField, value: string)
    ensures Contains(Text(EdgecoreSet(f, value)), value)
  {
    ContainsConcat(SedHead(f), value, SedTail());
  }

  /**
   * The edits that point edgecore at the cloud carry the token,
   * `https://<ip>:10002` and `<ip>:10000`.
   */
  lemma EdgecoreSettingsEmbed(ip: string, token: string)
    ensures Contains(Text(EdgecoreSet(Token, token)), token)
    ensures Contains(Text(EdgecoreSet(HttpServer, HttpServerAddress(ip))), "https://" + ip + ":10002")
    ensures Contains(Text(EdgecoreSet(Server, ServerAddress(ip))), ip + ":10000")
  {
    EdgecoreSetEmbeds(Token, token);
    EdgecoreSetEmbeds(HttpServer, HttpServerAddress(ip));
    EdgecoreSetEmbeds(Server, ServerAddress(ip));
  }

  /** `keadm join` is given the cloudcore address `<ip>:30000`. */
  lemma KeadmJoinEmbedsAddress(ip: string, token: string)
    ensures Contains(Text(KeadmJoin(ip, token)), ip + ":30000")
  {
    var x := "keadm join --cloudcore-ipport " + CloudcoreIpPort(ip);
    ContainsConcat("keadm join --cloudcore-ipport ", CloudcoreIpPort(ip), []);
    assert x + [] == x;
    ContainsAppendRight(x, CloudcoreIpPort(ip), " ");
    ContainsAppendRight(x + " ", CloudcoreIpPort(ip), CertPortFlag);
    ContainsAppendRight(x + " " + CertPortFlag, CloudcoreIpPort(ip), " --token ");
    ContainsAppendRight(x + " " + CertPortFlag + " --token ", CloudcoreIpPort(ip), token);
    ContainsAppendRight(x + " " + CertPortFlag + " --token " + token, CloudcoreIpPort(ip), JoinTail());
  }

  /** `keadm join` is given the certificate port 30002. */
  lemma KeadmJoinEmbedsCertPort(ip: string, token: string)
    ensures Contains(Text(KeadmJoin(ip, token)), "--certport 30002")
  {
    var x := "keadm join --cloudcore-ipport " + CloudcoreIpPort(ip) + " " + CertPortFlag;
    ContainsConcat("keadm join --cloudcore-ipport " + CloudcoreIpPort(ip) + " ", CertPortFlag, []);
    assert x + [] == x;
    ContainsAppendRight(x, CertPortFlag, " --token ");
    ContainsAppendRight(x + " --token ", CertPortFlag, token);
    ContainsAppendRight(x + " --token " + token, CertPortFlag, JoinTail());
  }

  /** `keadm join` is given the token. */
  lemma KeadmJoinEmbedsToken(ip: string, token: string)
    ensures Contains(Text(KeadmJoin(ip, token)), token)
  {
    var a := "keadm join --cloudcore-ipport " + CloudcoreIpPort(ip) + " " + CertPortFlag + " --token ";
    ContainsConcat(a, token, JoinTail());
  }
}
