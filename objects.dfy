/**
 * The API objects the four controllers read and write, as values: keys,
 * finalizer lists, owner lookups, the outcome of one reconcile pass, and the
 * VirtualMachine, DataVolume, Service, IPClaim and IPAddress objects kept in
 * the object store.
 */
module Objects {
  import opened Wrappers
  import Text

  /** A namespaced name: the key every object is stored under. */
  datatype Key = Key(namespace: string, name: string)

  /** The finalizer both Virtink controllers put on their objects and on IP claims. */
  const Finalizer: string := "capch.cluster.x-k8s.io"

  /** Error texts of the object store. */
  const NotFoundText: string := "not found"
  const AlreadyExistsText: string := "already exists"

  // ---------------------------------------------------------------------------
  // Finalizer lists

  /** Appends the finalizer unless it is already present. */
  function AddFinalizer(fs: seq<string>, f: string): (r: seq<string>)
    ensures f in r
    ensures forall g :: g in r <==> g in fs || g == f
    ensures f in fs ==> r == fs
    ensures f !in fs ==> |r| == |fs| + 1 && r[..|fs|] == fs
  {
    if f in fs then fs else fs + [f]
  }

  /** Drops every occurrence of the finalizer and keeps the rest in order. */
  function RemoveFinalizer(fs: seq<string>, f: string): seq<string>
  {
    if fs == [] then []
    else (if fs[0] == f then [] else [fs[0]]) + RemoveFinalizer(fs[1..], f)
  }

  lemma {:induction false} RemoveFinalizerMembers(fs: seq<string>, f: string)
    ensures f !in RemoveFinalizer(fs, f)
    ensures forall g :: g in RemoveFinalizer(fs, f) <==> g in fs && g != f
  {
    if fs != [] {
      RemoveFinalizerMembers(fs[1..], f);
      assert fs == [fs[0]] + fs[1..];
    }
  }

  lemma {:induction false} RemoveAbsentFinalizer(fs: seq<string>, f: string)
    requires f !in fs
    ensures RemoveFinalizer(fs, f) == fs
  {
    if fs != [] {
      RemoveAbsentFinalizer(fs[1..], f);
      assert [fs[0]] + fs[1..] == fs;
    }
  }

  /** Removing what was just added gives back the original list when it did not hold it. */
  lemma RemoveAfterAdd(fs: seq<string>, f: string)
    requires f !in fs
    ensures RemoveFinalizer(AddFinalizer(fs, f), f) == fs
  {
    RemoveConcat(fs, [f], f);
    RemoveAbsentFinalizer(fs, f);
    assert RemoveFinalizer([f], f) == [] + RemoveFinalizer([f][1..], f);
    assert fs + [] == fs;
  }

  lemma {:induction false} RemoveConcat(a: seq<string>, b: seq<string>, f: string)
    ensures RemoveFinalizer(a + b, f) == RemoveFinalizer(a, f) + RemoveFinalizer(b, f)
  {
    if a == [] {
      assert a + b == b;
    } else {
      var h := if a[0] == f then [] else [a[0]];
      assert (a + b)[0] == a[0] && (a + b)[1..] == a[1..] + b;
      RemoveConcat(a[1..], b, f);
      assert RemoveFinalizer(a + b, f) == h + (RemoveFinalizer(a[1..], f) + RemoveFinalizer(b, f));
      assert RemoveFinalizer(a, f) == h + RemoveFinalizer(a[1..], f);
    }
  }

  // ---------------------------------------------------------------------------
  // Passes and their outcomes

  /** The result of looking an object up: found, absent, or an error from the store. */
  datatype Lookup<T> = Found(value: T) | Absent | GetError(message: string)

  /**
   * How one reconcile pass ends: plain success, a delayed retry, a stop
   * without requeue (a recorded failure), or an error.
   */
  datatype Outcome = Done | RetryAfter(seconds: nat) | NoRequeue | Error(message: string)

  /** What a Reconcile call returns: the requeue delay in seconds (0 for none) and the error, if any. */
  datatype Reply = Reply(requeueAfter: nat, error: Option<string>)

  /** A recorded event: its reason and the name of the object it is about. */
  datatype Event = Event(reason: string, subject: string)

  // ---------------------------------------------------------------------------
  // Cluster API owners

  /** The owner Machine: only its bootstrap data secret name is read. */
  datatype OwnerMachine = OwnerMachine(dataSecretName: Option<string>)

  /** The owner Cluster: its name, whether its infrastructure is ready, and the infrastructure object it refers to. */
  datatype OwnerCluster = OwnerCluster(name: string, infrastructureReady: bool, infrastructureRef: Key)

  datatype MachineError = UpdateMachineError | InvalidConfigurationMachineError

  const FinalStateMessage: string := "VM has reached final state"

  // ---------------------------------------------------------------------------
  // Virtink virtual machines and data volumes

  datatype RunPolicy = Always | RerunOnFailure | Once | Manual | Halted

  /** NoPhase is the empty phase of a VM the virtualisation controller has not looked at yet. */
  datatype VmPhase = NoPhase | Pending | Scheduling | Scheduled | Running | Succeeded | Failed | Unknown

  datatype Disk = Disk(name: string)

  datatype VolumeSource =
    | DataVolumeSource(volumeName: string)
    | CloudInitSource(userDataBase64: string)
    | OtherSource

  datatype Volume = Volume(name: string, source: VolumeSource)

  /** The parts of a VM spec the controllers read or write. */
  datatype VmSpec = VmSpec(runPolicy: RunPolicy, disks: seq<Disk>, volumes: seq<Volume>)

  datatype VirtualMachine = VirtualMachine(
    labels: map<string, string>,
    annotations: map<string, string>,
    spec: VmSpec,
    uid: string,
    phase: VmPhase)

  /** A DataVolume spec is carried from its template to the store unchanged. */
  datatype DataVolumeSpec = DataVolumeSpec(fields: map<string, string>)

  datatype DataVolume = DataVolume(spec: DataVolumeSpec)

  /** A volume template of a VirtinkMachine; only DataVolume templates yield objects. */
  datatype VolumeTemplate = VolumeTemplate(dataVolume: Option<DataVolumeTemplate>)

  datatype DataVolumeTemplate = DataVolumeTemplate(name: string, spec: DataVolumeSpec)

  /** The VM template of a VirtinkMachine: its namespace ("" for the machine's own) and its spec. */
  datatype VmTemplate = VmTemplate(namespace: string, spec: VmSpec)

  // ---------------------------------------------------------------------------
  // IP address management

  datatype IpClaim = IpClaim(
    finalizers: seq<string>,
    pool: Key,
    owner: Option<string>,
    errorMessage: Option<string>,
    address: Option<Key>)

  datatype IpAddress = IpAddress(address: string)

  /** The data of a Secret, by key. */
  type Secret = map<string, seq<Text.Byte>>

  // ---------------------------------------------------------------------------
  // Services

  datatype ServiceType = ClusterIP | NodePort | LoadBalancer | ExternalName

  datatype ServicePort = ServicePort(port: int, targetPort: int)

  /**
   * A Service: metadata, the spec fields the controllers set, the cluster IP
   * and load-balancer ingress IPs filled in by the cluster, and the UID of its
   * controlling owner, if any.
   */
  datatype Service = Service(
    labels: map<string, string>,
    annotations: map<string, string>,
    serviceType: Option<ServiceType>,
    selector: map<string, string>,
    ports: seq<ServicePort>,
    clusterIP: string,
    ingressIPs: seq<string>,
    controller: Option<string>)

  /** The Service value a failed lookup leaves behind: every field empty. */
  const EmptyService: Service := Service(map[], map[], None, map[], [], "", [], None)

  const ClusterNameLabel: string := "cluster.x-k8s.io/cluster-name"
  const ControlPlaneLabel: string := "cluster.x-k8s.io/control-plane"

  /** The API server port every control plane endpoint uses. */
  const ApiServerPort: int := 6443

  datatype Endpoint = Endpoint(host: string, port: int)

  /** What the Virtink machine controller reads of a stored VirtinkCluster. */
  datatype VirtinkClusterRecord = VirtinkClusterRecord(infraClusterSecretRef: Option<Key>)

  // ---------------------------------------------------------------------------
  // Kubrid virtual machines

  datatype KubridVolumeSource =
    | ContainerRootfs(image: string, size: string)
    | CloudInit(userDataSecretName: string)

  datatype KubridVolume = KubridVolume(name: string, source: KubridVolumeSource)

  datatype KubridVm = KubridVm(
    labels: map<string, string>,
    annotations: map<string, string>,
    runPolicy: RunPolicy,
    sockets: nat,
    coresPerSocket: nat,
    memory: string,
    kernelImage: string,
    kernelCmdline: string,
    disks: seq<string>,
    interfaces: seq<string>,
    volumes: seq<KubridVolume>,
    networks: seq<string>,
    uid: string,
    controller: Option<string>)
}
