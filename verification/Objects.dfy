/** The Kubernetes objects the operator builds for an AgentTask, and how it reads them back. */
module Objects {
  import opened Options

  // ---- ConfigMap names ----

  /** SHA-256 printed as hexadecimal: some function to strings of width 64. It is not assumed
      injective, which no function of fixed output width can be. */
  type Digest = string -> string

  ghost predicate FixedWidth(sha: Digest) {
    forall data :: |sha(data)| == 64
  }

  /** buildConfigMapName; `spec` is the YAML rendering of the task's spec. */
  function ConfigMapName(sha: Digest, task: string, spec: string): string {
    task + sha(spec) + "-config"
  }

  /** Two names are equal only for the same task and the same digest: the fixed width lets the
      name be cut apart again, whatever the task names are. */
  lemma ConfigMapNameIff(sha: Digest, t1: string, s1: string, t2: string, s2: string)
    requires FixedWidth(sha)
    ensures ConfigMapName(sha, t1, s1) == ConfigMapName(sha, t2, s2) <==> t1 == t2 && sha(s1) == sha(s2)
  {
    var a, b := ConfigMapName(sha, t1, s1), ConfigMapName(sha, t2, s2);
    if a == b {
      assert |a| == |t1| + 64 + 7 && |b| == |t2| + 64 + 7;
      assert a[..|t1|] == t1 && b[..|t2|] == t2;
      assert a[|t1|..|t1| + 64] == sha(s1) && b[|t2|..|t2| + 64] == sha(s2);
    }
  }

  // ---- Pods ----

  datatype KeyToPath = KeyToPath(key: string, path: string)
  datatype Projection = ConfigMapProjection(name: string, items: seq<KeyToPath>) | OtherProjection
  datatype VolumeSource = Projected(sources: seq<Projection>) | EmptyDir
  datatype Volume = Volume(name: string, source: VolumeSource)
  datatype PodObject = PodObject(labels: map<string, string>, volumes: seq<Volume>)

  /** buildPodForAgentTask: the parts the operator relies on later. */
  function BuildPod(sha: Digest, task: string, spec: string): PodObject {
    PodObject(
      map["agenttask" := task],
      [ Volume("task", Projected([ConfigMapProjection(ConfigMapName(sha, task, spec),
                                                      [KeyToPath("task.yaml", "task.yaml")])])),
        Volume("trace", EmptyDir),
        Volume("workspace", EmptyDir) ])
  }

  predicate IsMatch(pod: PodObject, volume: string, item: KeyToPath, i: int, j: int) {
    && 0 <= i < |pod.volumes|
    && pod.volumes[i].name == volume
    && pod.volumes[i].source.Projected?
    && 0 <= j < |pod.volumes[i].source.sources|
    && pod.volumes[i].source.sources[j].ConfigMapProjection?
    && item in pod.volumes[i].source.sources[j].items
  }

  ghost predicate NoMatchBefore(pod: PodObject, volume: string, item: KeyToPath, i: int, j: int) {
    forall a, b :: (a < i || (a == i && b < j)) ==> !IsMatch(pod, volume, item, a, b)
  }

  /** The answer getConfigMapFromPod promises: the first match in reading order, or none. */
  ghost predicate FirstMatch(pod: PodObject, volume: string, item: KeyToPath, r: Option<Projection>) {
    match r
    case None => forall i, j :: !IsMatch(pod, volume, item, i, j)
    case Some(p) =>
      exists i, j :: IsMatch(pod, volume, item, i, j) && NoMatchBefore(pod, volume, item, i, j)
                     && p == pod.volumes[i].source.sources[j]
  }

  function Sources(v: Volume): seq<Projection> {
    if v.source.Projected? then v.source.sources else []
  }

  predicate HasConfigMap(pod: PodObject, volume: string, item: KeyToPath) {
    exists i | 0 <= i < |pod.volumes| :: exists j | 0 <= j < |Sources(pod.volumes[i])| ::
      IsMatch(pod, volume, item, i, j)
  }

  method GetConfigMapFromPod(pod: PodObject, volume: string, key: string, path: string)
    returns (r: Option<Projection>)
    ensures FirstMatch(pod, volume, KeyToPath(key, path), r)
    ensures r.Some? <==> HasConfigMap(pod, volume, KeyToPath(key, path))
  {
    ghost var item := KeyToPath(key, path);
    for i := 0 to |pod.volumes|
      invariant NoMatchBefore(pod, volume, item, i, 0)
    {
      if pod.volumes[i].name == volume && pod.volumes[i].source.Projected? {
        var sources := pod.volumes[i].source.sources;
        for j := 0 to |sources|
          invariant NoMatchBefore(pod, volume, item, i, j)
        {
          if sources[j].ConfigMapProjection? {
            var items := sources[j].items;
            for k := 0 to |items|
              invariant forall m :: 0 <= m < k ==> items[m] != item
            {
              if items[k].key == key && items[k].path == path {
                assert items[k] == item;
                assert IsMatch(pod, volume, item, i, j) && sources == Sources(pod.volumes[i]);
                return Some(sources[j]);
              }
            }
          }
        }
      }
    }
    return None;
  }

  lemma BuiltPodHasConfigMap(sha: Digest, task: string, spec: string)
    ensures HasConfigMap(BuildPod(sha, task, spec), "task", KeyToPath("task.yaml", "task.yaml"))
  {
    var pod := BuildPod(sha, task, spec);
    assert IsMatch(pod, "task", KeyToPath("task.yaml", "task.yaml"), 0, 0);
    assert |Sources(pod.volumes[0])| == 1;
  }

  /** Reading back a built pod finds the builder's own ConfigMap and nothing else. */
  lemma BuiltPodReference(sha: Digest, task: string, spec: string, r: Option<Projection>)
    requires FirstMatch(BuildPod(sha, task, spec), "task", KeyToPath("task.yaml", "task.yaml"), r)
    ensures r.Some? && r.value.ConfigMapProjection? && r.value.name == ConfigMapName(sha, task, spec)
  {
    var pod, item := BuildPod(sha, task, spec), KeyToPath("task.yaml", "task.yaml");
    assert IsMatch(pod, "task", item, 0, 0);
    if r.Some? {
      var i, j :| IsMatch(pod, "task", item, i, j) && r.value == pod.volumes[i].source.sources[j];
      assert i == 0 && j == 0;
    }
  }

  // ---- Network policies ----

  datatype NetworkPolicy = NetworkPolicy(selector: map<string, string>, policyTypes: seq<string>, egress: seq<string>)

  function PolicyName(task: string): string {
    task + "-network-policy"
  }

  function BuildNetworkPolicy(task: string): NetworkPolicy {
    NetworkPolicy(map["agenttask" := task], ["Egress"], [])
  }

  predicate Selects(policy: NetworkPolicy, pod: PodObject) {
    forall k :: k in policy.selector ==> k in pod.labels && pod.labels[k] == policy.selector[k]
  }

  /** Section "Default deny all egress traffic" of the Kubernetes network policy reference:
      egress is restricted and no rule allows any. */
  predicate DeniesAllEgress(policy: NetworkPolicy) {
    "Egress" in policy.policyTypes && policy.egress == []
  }

  lemma PolicyNameInjective(t1: string, t2: string)
    requires PolicyName(t1) == PolicyName(t2)
    ensures t1 == t2
  {
    var n := PolicyName(t1);
    assert n[..|t1|] == t1 && n[..|t2|] == t2;
  }
}
