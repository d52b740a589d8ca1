/**
 * The VirtinkMachine controller: a finalizer on the first pass, an IP claim
 * and placeholder rewrite of the annotations, DataVolumes and a
 * VirtualMachine in the infrastructure cluster, and the machine's provider
 * ID, readiness and failure state projected from the VM's phase.
 */
module VirtinkMachineController {
  import opened Wrappers
  import opened Objects
  import opened Kube
  import Text
  import VirtinkClusterController

  const CloudInitName: string := "cloud-init"
  const UserDataKey: string := "value"
  const ProviderIdPrefix: string := "virtink://"

  /** A VirtinkMachine object as the pass holds it; the deferred patch writes the var fields back. */
  class VirtinkMachine {
    const name: string
    const namespace: string
    const uid: string
    const deleting: bool
    const labels: map<string, string>
    const vmTemplate: VmTemplate
    const volumeTemplates: seq<VolumeTemplate>
    /** The name of the IP pool to claim an address from, if any. */
    const ipPoolRef: Option<string>
    var finalizers: seq<string>
    var annotations: map<string, string>
    var providerId: Option<string>
    var ready: bool
    var failureReason: Option<MachineError>
    var failureMessage: Option<string>

    constructor (name: string, namespace: string, uid: string, deleting: bool, labels: map<string, string>,
                 vmTemplate: VmTemplate, volumeTemplates: seq<VolumeTemplate>, ipPoolRef: Option<string>,
                 finalizers: seq<string>, annotations: map<string, string>)
      ensures this.name == name && this.namespace == namespace && this.uid == uid && this.deleting == deleting
      ensures this.labels == labels && this.vmTemplate == vmTemplate
      ensures this.volumeTemplates == volumeTemplates && this.ipPoolRef == ipPoolRef
      ensures this.finalizers == finalizers && this.annotations == annotations
      ensures providerId == None && !ready && failureReason == None && failureMessage == None
    {
      this.name, this.namespace, this.uid, this.deleting := name, namespace, uid, deleting;
      this.labels, this.vmTemplate := labels, vmTemplate;
      this.volumeTemplates, this.ipPoolRef := volumeTemplates, ipPoolRef;
      this.finalizers, this.annotations := finalizers, annotations;
      providerId, ready, failureReason, failureMessage := None, false, None, None;
    }

    /** The VM template's namespace when set, the machine's own otherwise. */
    function InfraNamespace(): string
    {
      if vmTemplate.namespace != "" then vmTemplate.namespace else namespace
    }

    /** The VM shares the machine's name, in the infrastructure namespace. */
    function VmKey(): Key
    {
      Key(InfraNamespace(), name)
    }

    /** The IP claim shares the machine's name and namespace. */
    function ClaimKey(): Key
    {
      Key(namespace, name)
    }
  }

  // ---------------------------------------------------------------------------
  // DataVolumes

  /** A DataVolume to create, with the key it is stored under. */
  datatype PlannedDataVolume = PlannedDataVolume(key: Key, volume: DataVolume)

  /** The DataVolume a template yields: named `<machine>-<template>`, in the infrastructure namespace. */
  function PlanOf(machineName: string, ns: string, d: DataVolumeTemplate): PlannedDataVolume
  {
    PlannedDataVolume(Key(ns, machineName + "-" + d.name), DataVolume(d.spec))
  }

  /** The DataVolumes of the volume templates, in template order; templates of other kinds yield none. */
  function DataVolumesFor(machineName: string, ns: string, ts: seq<VolumeTemplate>): seq<PlannedDataVolume>
    decreases |ts|
  {
    if ts == [] then []
    else
      var last := ts[|ts| - 1];
      DataVolumesFor(machineName, ns, ts[..|ts| - 1])
        + (if last.dataVolume.Some? then [PlanOf(machineName, ns, last.dataVolume.value)] else [])
  }

  /** Exactly the DataVolume templates yield a planned DataVolume, each under its derived name. */
  lemma {:induction false} DataVolumesForMembers(machineName: string, ns: string, ts: seq<VolumeTemplate>)
    ensures forall p :: p in DataVolumesFor(machineName, ns, ts) <==>
      exists j :: 0 <= j < |ts| && ts[j].dataVolume.Some? && p == PlanOf(machineName, ns, ts[j].dataVolume.value)
  {
    if ts != [] {
      var init := ts[..|ts| - 1];
      DataVolumesForMembers(machineName, ns, init);
      forall p | p in DataVolumesFor(machineName, ns, ts)
        ensures exists j :: 0 <= j < |ts| && ts[j].dataVolume.Some? && p == PlanOf(machineName, ns, ts[j].dataVolume.value)
      {
        if p in DataVolumesFor(machineName, ns, init) {
          var j :| 0 <= j < |init| && init[j].dataVolume.Some? && p == PlanOf(machineName, ns, init[j].dataVolume.value);
          assert ts[j] == init[j];
        } else {
          assert ts[|ts| - 1].dataVolume.Some?;
        }
      }
      forall p | exists j :: 0 <= j < |ts| && ts[j].dataVolume.Some? && p == PlanOf(machineName, ns, ts[j].dataVolume.value)
        ensures p in DataVolumesFor(machineName, ns, ts)
      {
        var j :| 0 <= j < |ts| && ts[j].dataVolume.Some? && p == PlanOf(machineName, ns, ts[j].dataVolume.value);
        if j < |ts| - 1 {
          assert init[j] == ts[j];
        }
      }
    }
  }

  /** Every planned DataVolume lives in the infrastructure namespace and is named after the machine. */
  lemma PlannedNames(machineName: string, ns: string, ts: seq<VolumeTemplate>, p: PlannedDataVolume)
    requires p in DataVolumesFor(machineName, ns, ts)
    ensures p.key.namespace == ns
    ensures exists t :: p.key.name == machineName + "-" + t
  {
    DataVolumesForMembers(machineName, ns, ts);
    var j :| 0 <= j < |ts| && ts[j].dataVolume.Some? && p == PlanOf(machineName, ns, ts[j].dataVolume.value);
    assert p.key.name == machineName + "-" + ts[j].dataVolume.value.name;
  }

  /** The DataVolume store after one pass, and the keys created in it, in order. */
  datatype Provisioned = Provisioned(volumes: map<Key, DataVolume>, created: seq<Key>)

  /**
   * Walks the planned DataVolumes in order and creates each one whose key
   * holds neither a DataVolume nor a PersistentVolumeClaim.
   */
  function Provision(volumes: map<Key, DataVolume>, pvcs: set<Key>, dvs: seq<PlannedDataVolume>): Provisioned
    decreases |dvs|
  {
    if dvs == [] then Provisioned(volumes, [])
    else
      var p := Provision(volumes, pvcs, dvs[..|dvs| - 1]);
      var d := dvs[|dvs| - 1];
      if d.key in p.volumes || d.key in pvcs then p
      else Provisioned(p.volumes[d.key := d.volume], p.created + [d.key])
  }

  /**
   * Create-once: existing DataVolumes are never replaced, every planned key
   * ends up with a DataVolume or a claim, and a key is created only when it
   * was planned and held neither.
   */
  lemma {:induction false} ProvisionCreatesOnlyMissing(volumes: map<Key, DataVolume>, pvcs: set<Key>, dvs: seq<PlannedDataVolume>)
    ensures var r := Provision(volumes, pvcs, dvs);
      && (forall k :: k in volumes ==> k in r.volumes && r.volumes[k] == volumes[k])
      && (forall j :: 0 <= j < |dvs| ==> dvs[j].key in r.volumes || dvs[j].key in pvcs)
      && (forall k :: k in r.created <==> k in r.volumes && k !in volumes)
      && (forall k :: k in r.created ==> k !in pvcs && exists j :: 0 <= j < |dvs| && dvs[j].key == k)
  {
    if dvs != [] {
      var init := dvs[..|dvs| - 1];
      ProvisionCreatesOnlyMissing(volumes, pvcs, init);
      var p := Provision(volumes, pvcs, init);
      forall k | k in p.created ensures exists j :: 0 <= j < |dvs| && dvs[j].key == k {
        var j :| 0 <= j < |init| && init[j].key == k;
        assert dvs[j] == init[j];
      }
      forall j | 0 <= j < |dvs| - 1 ensures dvs[j].key in p.volumes || dvs[j].key in pvcs {
        assert dvs[j] == init[j];
      }
    }
  }

  lemma ProvisionStep(volumes: map<Key, DataVolume>, pvcs: set<Key>, dvs: seq<PlannedDataVolume>, i: nat)
    requires i < |dvs|
    ensures var p, d := Provision(volumes, pvcs, dvs[..i]), dvs[i];
      Provision(volumes, pvcs, dvs[..i + 1])
        == if d.key in p.volumes || d.key in pvcs then p else Provisioned(p.volumes[d.key := d.volume], p.created + [d.key])
  {
    assert dvs[..i + 1][..i] == dvs[..i];
  }

  /** The events of a pass that created the DataVolumes with these keys. */
  function VolumeEvents(keys: seq<Key>): (es: seq<Event>)
    ensures |es| == |keys|
    ensures forall i :: 0 <= i < |keys| ==> es[i] == Event("CreatedDataVolume", keys[i].name)
  {
    if keys == [] then []
    else VolumeEvents(keys[..|keys| - 1]) + [Event("CreatedDataVolume", keys[|keys| - 1].name)]
  }

  lemma VolumeEventsStep(keys: seq<Key>, k: Key)
    ensures VolumeEvents(keys + [k]) == VolumeEvents(keys) + [Event("CreatedDataVolume", k.name)]
  {
    assert (keys + [k])[..|keys|] == keys;
  }

  // ---------------------------------------------------------------------------
  // The VirtualMachine

  /** A DataVolume reference is renamed to `<machine>-<volume>`; other volumes are kept. */
  function RenameVolume(machineName: string, v: Volume): Volume
  {
    match v.source
      case DataVolumeSource(n) => Volume(v.name, DataVolumeSource(machineName + "-" + n))
      case _ => v
  }

  function RenameVolumes(machineName: string, vs: seq<Volume>): (r: seq<Volume>)
    ensures |r| == |vs|
    ensures forall i :: 0 <= i < |vs| ==> r[i] == RenameVolume(machineName, vs[i])
  {
    seq(|vs|, i requires 0 <= i < |vs| => RenameVolume(machineName, vs[i]))
  }

  /** The user data of a bootstrap Secret: its "value" entry, empty when absent. */
  function UserData(secret: Secret): seq<Text.Byte>
  {
    if UserDataKey in secret then secret[UserDataKey] else []
  }

  /**
   * The VM built for a machine: its labels and annotations, the template's
   * spec with DataVolume references renamed, and one more disk and volume,
   * both named "cloud-init", carrying the base64 of the bootstrap data. The
   * bootstrap Secret is read from the machine's namespace.
   */
  function DesiredVm(m: VirtinkMachine, annotations: map<string, string>, secrets: map<Key, Secret>, secretName: string)
    : (r: Result<VirtualMachine, string>)
    ensures r.Err? <==> Key(m.namespace, secretName) !in secrets
    ensures r.Err? ==> r.error == "get bootstrap Secret: " + NotFoundText
    ensures r.Ok? ==> r.value.labels == m.labels && r.value.annotations == annotations
    ensures r.Ok? ==> r.value.spec.runPolicy == m.vmTemplate.spec.runPolicy
    // every DataVolume reference of the template is renamed to `<machine>-<name>`; other volumes are kept
    ensures r.Ok? ==>
      var t := m.vmTemplate.spec.volumes;
      |r.value.spec.volumes| == |t| + 1
      && forall i :: 0 <= i < |t| ==>
           r.value.spec.volumes[i].name == t[i].name
           && (t[i].source.DataVolumeSource? ==>
                 r.value.spec.volumes[i].source == DataVolumeSource(m.name + "-" + t[i].source.volumeName))
           && (!t[i].source.DataVolumeSource? ==> r.value.spec.volumes[i] == t[i])
  {
    var k := Key(m.namespace, secretName);
    if k !in secrets then Err("get bootstrap Secret: " + NotFoundText)
    else
      var spec := m.vmTemplate.spec;
      Ok(VirtualMachine(m.labels, annotations,
         VmSpec(spec.runPolicy, spec.disks + [Disk(CloudInitName)],
                RenameVolumes(m.name, spec.volumes)
                  + [Volume(CloudInitName, CloudInitSource(Text.Encode(UserData(secrets[k]))))]),
         "", NoPhase))
  }

  /**
   * The cloud-init disk and volume are appended once, after the template's,
   * and the volume's user data decodes back to the bootstrap data.
   */
  lemma CloudInitAppended(m: VirtinkMachine, annotations: map<string, string>, secrets: map<Key, Secret>, secretName: string)
    requires Key(m.namespace, secretName) in secrets
    ensures var vm := DesiredVm(m, annotations, secrets, secretName).value;
      var t := m.vmTemplate.spec;
      && |vm.spec.disks| == |t.disks| + 1 && vm.spec.disks[..|t.disks|] == t.disks
      && vm.spec.disks[|t.disks|] == Disk(CloudInitName)
      && |vm.spec.volumes| == |t.volumes| + 1
      && vm.spec.volumes[|t.volumes|].name == CloudInitName
      && vm.spec.volumes[|t.volumes|].source.CloudInitSource?
      && Text.Decode(vm.spec.volumes[|t.volumes|].source.userDataBase64)
           == Some(UserData(secrets[Key(m.namespace, secretName)]))
  {
    var vm := DesiredVm(m, annotations, secrets, secretName).value;
    var t := m.vmTemplate.spec;
    assert vm.spec.disks == t.disks + [Disk(CloudInitName)];
    Text.EncodeRoundTrip(UserData(secrets[Key(m.namespace, secretName)]));
  }

  /**
   * With a template that has no disk or volume named "cloud-init", the built
   * VM has exactly one of each.
   */
  lemma OneCloudInit(m: VirtinkMachine, annotations: map<string, string>, secrets: map<Key, Secret>, secretName: string)
    requires Key(m.namespace, secretName) in secrets
    requires forall i :: 0 <= i < |m.vmTemplate.spec.disks| ==> m.vmTemplate.spec.disks[i].name != CloudInitName
    requires forall i :: 0 <= i < |m.vmTemplate.spec.volumes| ==> m.vmTemplate.spec.volumes[i].name != CloudInitName
    ensures var vm := DesiredVm(m, annotations, secrets, secretName).value;
      && (forall i :: 0 <= i < |vm.spec.disks| ==> (vm.spec.disks[i].name == CloudInitName <==> i == |vm.spec.disks| - 1))
      && (forall i :: 0 <= i < |vm.spec.volumes| ==> (vm.spec.volumes[i].name == CloudInitName <==> i == |vm.spec.volumes| - 1))
  {
    var vm := DesiredVm(m, annotations, secrets, secretName).value;
    var t := m.vmTemplate.spec;
    forall i | 0 <= i < |vm.spec.volumes| - 1 ensures vm.spec.volumes[i].name != CloudInitName {
      assert vm.spec.volumes[i] == RenameVolume(m.name, t.volumes[i]);
    }
    forall i | 0 <= i < |vm.spec.disks| - 1 ensures vm.spec.disks[i].name != CloudInitName {
      assert vm.spec.disks[i] == t.disks[i];
    }
  }

  /**
   * The renamed DataVolume references of the VM are the DataVolumes the
   * volume templates yield: a template volume that refers to a DataVolume
   * template by name refers, after renaming, to that template's DataVolume.
   */
  lemma VolumeReferencesResolve(m: VirtinkMachine, annotations: map<string, string>, secrets: map<Key, Secret>,
                                secretName: string, i: nat)
    requires Key(m.namespace, secretName) in secrets
    requires i < |m.vmTemplate.spec.volumes| && m.vmTemplate.spec.volumes[i].source.DataVolumeSource?
    requires exists j :: 0 <= j < |m.volumeTemplates| && m.volumeTemplates[j].dataVolume.Some?
               && m.volumeTemplates[j].dataVolume.value.name == m.vmTemplate.spec.volumes[i].source.volumeName
    ensures var v := DesiredVm(m, annotations, secrets, secretName).value.spec.volumes[i];
      v.source.DataVolumeSource?
      && exists p :: p in DataVolumesFor(m.name, m.InfraNamespace(), m.volumeTemplates)
           && p.key == Key(m.InfraNamespace(), v.source.volumeName)
  {
    var j :| 0 <= j < |m.volumeTemplates| && m.volumeTemplates[j].dataVolume.Some?
               && m.volumeTemplates[j].dataVolume.value.name == m.vmTemplate.spec.volumes[i].source.volumeName;
    DataVolumesForMembers(m.name, m.InfraNamespace(), m.volumeTemplates);
    var p := PlanOf(m.name, m.InfraNamespace(), m.volumeTemplates[j].dataVolume.value);
    assert p in DataVolumesFor(m.name, m.InfraNamespace(), m.volumeTemplates);
  }

  /**
   * The machine's VM template as the source leaves it after building a VM:
   * the VM's spec shares the template's volume list, so each DataVolume
   * reference keeps its `<machine>-` prefix in the template too (and the
   * machine patch at the end of the pass stores it). Other volumes and the
   * rest of the template are unchanged.
   */
  function TemplateAfterBuild(machineName: string, t: VmTemplate): (r: VmTemplate)
    ensures r.namespace == t.namespace && r.spec.runPolicy == t.spec.runPolicy && r.spec.disks == t.spec.disks
    ensures |r.spec.volumes| == |t.spec.volumes|
    ensures forall i :: 0 <= i < |t.spec.volumes| ==>
      r.spec.volumes[i].name == t.spec.volumes[i].name
      && (t.spec.volumes[i].source.DataVolumeSource? ==>
            r.spec.volumes[i].source == DataVolumeSource(machineName + "-" + t.spec.volumes[i].source.volumeName))
      && (!t.spec.volumes[i].source.DataVolumeSource? ==> r.spec.volumes[i] == t.spec.volumes[i])
  {
    t.(spec := t.spec.(volumes := RenameVolumes(machineName, t.spec.volumes)))
  }

  /**
   * As written, a second build from the template the first one left behind
   * refers to `<machine>-<machine>-<name>`, which no volume template yields:
   * machine "m" with a DataVolume template "root" and a volume that refers
   * to it gets "m-root" on the first build and "m-m-root" on the next.
   */
  lemma RebuildMissesDataVolume()
    ensures var t := VmTemplate("", VmSpec(Always, [Disk("root")], [Volume("root", DataVolumeSource("root"))]));
      var ts := [VolumeTemplate(Some(DataVolumeTemplate("root", DataVolumeSpec(map[]))))];
      var first := RenameVolumes("m", t.spec.volumes)[0];
      var second := RenameVolumes("m", TemplateAfterBuild("m", t).spec.volumes)[0];
      && first.source == DataVolumeSource("m-root")
      && (exists p :: p in DataVolumesFor("m", "ns", ts) && p.key == Key("ns", first.source.volumeName))
      && second.source == DataVolumeSource("m-m-root")
      && (forall p :: p in DataVolumesFor("m", "ns", ts) ==> p.key.name != second.source.volumeName)
  {
    var ts := [VolumeTemplate(Some(DataVolumeTemplate("root", DataVolumeSpec(map[]))))];
    var p := PlanOf("m", "ns", ts[0].dataVolume.value);
    assert DataVolumesFor("m", "ns", ts) == DataVolumesFor("m", "ns", []) + [p];
    assert DataVolumesFor("m", "ns", ts) == [p];
    assert p.key.name == "m-root" && |"m-root"| != |"m-m-root"|;
  }

  // ---------------------------------------------------------------------------
  // The phase table

  /** The VM is still being placed: the pass retries after 10 s. */
  predicate Provisioning(phase: VmPhase)
  {
    phase == Pending || phase == Scheduling || phase == Scheduled
  }

  /** The VM has stopped for good under its run policy: the machine is marked failed. */
  predicate ReachesFinalState(phase: VmPhase, policy: RunPolicy)
  {
    || (phase == Failed && (policy == Halted || policy == Once))
    || (phase == Succeeded && (policy == Halted || policy == Once || policy == RerunOnFailure))
  }

  /** Whether a run policy starts a stopped VM again, or leaves that to a user. */
  predicate MayStartAgain(phase: VmPhase, policy: RunPolicy)
  {
    match policy
      case Always => true
      case Manual => true
      case RerunOnFailure => phase == Failed
      case Once => false
      case Halted => false
  }

  /** A VM reaches its final state exactly when it has stopped and its run policy will not start it again. */
  lemma FinalStateMeansStopped(phase: VmPhase, policy: RunPolicy)
    ensures ReachesFinalState(phase, policy) <==> (phase == Succeeded || phase == Failed) && !MayStartAgain(phase, policy)
  {
  }

  // ---------------------------------------------------------------------------
  // The infrastructure client

  /** The owners a pass that holds the finalizer has found. */
  datatype Owners = Owners(machine: OwnerMachine, cluster: OwnerCluster)

  /** What a pass works with: the store of the infrastructure cluster and, while the finalizer is held, the owners. */
  datatype Context = Context(infra: Store, owners: Option<Owners>)

  /** A MAC address text generated from three random bytes. */
  function MacFor(random: seq<Text.Byte>): string
    requires |random| == 3
  {
    Text.MacText(Text.GenerateMac(Some(random)).value)
  }

  /** An address text free of placeholder characters, such as a dotted IPv4 address. */
  predicate PlainAddress(ip: string)
  {
    Text.Inert(ip)
  }

  /** The IP claim created for a machine: held by the finalizer, in the machine's pool, owned by the machine. */
  function NewClaim(m: VirtinkMachine): (c: IpClaim)
    requires m.ipPoolRef.Some?
    ensures c.finalizers == [Finalizer] && c.owner == Some(m.uid)
    ensures c.pool == Key(m.namespace, m.ipPoolRef.value)
    ensures c.errorMessage.None? && c.address.None?
  {
    IpClaim([Finalizer], Key(m.namespace, m.ipPoolRef.value), Some(m.uid), None, None)
  }

  /** The IP claim of a deleted machine: the same claim without the finalizer, so the IP manager may release it. */
  function ReleaseClaim(c: IpClaim): (r: IpClaim)
    ensures Finalizer !in r.finalizers
    ensures forall g :: g in r.finalizers <==> g in c.finalizers && g != Finalizer
    ensures r.pool == c.pool && r.owner == c.owner && r.errorMessage == c.errorMessage && r.address == c.address
  {
    RemoveFinalizerMembers(c.finalizers, Finalizer);
    c.(finalizers := RemoveFinalizer(c.finalizers, Finalizer))
  }

  /**
   * A second address pass rewrites nothing: after one rewrite the
   * annotations hold no placeholder, whatever MAC address the next pass draws.
   */
  lemma AnnotationsSettle(a: map<string, string>, ip: string, r1: seq<Text.Byte>, r2: seq<Text.Byte>)
    requires |r1| == 3 && |r2| == 3 && PlainAddress(ip)
    ensures var once := Text.ReplaceAll(a, ip, MacFor(r1));
      Text.ReplaceAll(once, ip, MacFor(r2)) == once
  {
    Text.GeneratedMacText(r1);
    Text.ReplaceAllIdempotent(a, ip, MacFor(r1), ip, MacFor(r2));
  }

  // ---------------------------------------------------------------------------
  // The reconciler

  class VirtinkMachineReconciler {
    const client: Store
    const recorder: Recorder

    constructor (client: Store, recorder: Recorder)
      ensures this.client == client && this.recorder == recorder
    {
      this.client, this.recorder := client, recorder;
    }

    /**
     * The lookups a pass makes while the machine holds the finalizer: the
     * owner Machine, the owner Cluster, the VirtinkCluster it points at, and
     * the infrastructure client that cluster names. Err carries how the pass
     * ends: Done for a missing owner, Error otherwise. Without the finalizer
     * nothing is looked up and the management store is used.
     */
    function Resolve(m: VirtinkMachine, ownerMachine: Lookup<OwnerMachine>, ownerCluster: Lookup<OwnerCluster>,
                     remote: Result<Store, string>): (r: Result<Context, Outcome>)
      reads this, client, m
      ensures Finalizer !in m.finalizers ==> r == Ok(Context(client, None))
      ensures Finalizer in m.finalizers && r.Ok? ==>
        ownerMachine.Found? && ownerCluster.Found?
        && r.value.owners == Some(Owners(ownerMachine.value, ownerCluster.value))
      ensures r.Ok? ==> r.value.infra == client || remote == Ok(r.value.infra)
      ensures Finalizer in m.finalizers && !ownerMachine.Found? ==>
        r == Err(if ownerMachine.Absent? then Done else Error("get owner Machine: " + ownerMachine.message))
      ensures Finalizer in m.finalizers && ownerMachine.Found? && !ownerCluster.Found? ==>
        r == Err(if ownerCluster.Absent? then Done else Error("get owner Cluster: " + ownerCluster.message))
      ensures Finalizer in m.finalizers && ownerMachine.Found? && ownerCluster.Found?
              && ownerCluster.value.infrastructureRef !in client.virtinkClusters ==>
        r == Err(Error("get Cluster: " + NotFoundText))
      // the VirtinkCluster decides the store: its kubeconfig Secret, when it names one, or the management store
      ensures Finalizer in m.finalizers && ownerMachine.Found? && ownerCluster.Found?
              && ownerCluster.value.infrastructureRef in client.virtinkClusters ==>
        var owners := Some(Owners(ownerMachine.value, ownerCluster.value));
        var secretRef := client.virtinkClusters[ownerCluster.value.infrastructureRef].infraClusterSecretRef;
        (secretRef.None? ==> r == Ok(Context(client, owners)))
        && (secretRef.Some? ==>
              var c := VirtinkClusterController.InfraClusterClient(client, secretRef.value, remote);
              (c.Err? ==> r == Err(Error("build infra cluster client: " + c.error)))
              && (c.Ok? ==> r == Ok(Context(remote.value, owners))))
    {
      if Finalizer !in m.finalizers then Ok(Context(client, None))
      else match (ownerMachine, ownerCluster)
        case (GetError(e), _) => Err(Error("get owner Machine: " + e))
        case (Absent, _) => Err(Done)
        case (Found(_), GetError(e)) => Err(Error("get owner Cluster: " + e))
        case (Found(_), Absent) => Err(Done)
        case (Found(om), Found(oc)) =>
          var owners := Some(Owners(om, oc));
          if oc.infrastructureRef !in client.virtinkClusters then Err(Error("get Cluster: " + NotFoundText))
          else match client.virtinkClusters[oc.infrastructureRef].infraClusterSecretRef
            case None => Ok(Context(client, owners))
            case Some(ref) =>
              match VirtinkClusterController.InfraClusterClient(client, ref, remote)
                case Err(e) => Err(Error("build infra cluster client: " + e))
                case Ok(c) => Ok(Context(c, owners))
    }

    /** The DataVolumes of a machine's volume templates, in template order. */
    method BuildDataVolumes(m: VirtinkMachine) returns (dvs: seq<PlannedDataVolume>)
      ensures dvs == DataVolumesFor(m.name, m.InfraNamespace(), m.volumeTemplates)
    {
      var ns := m.InfraNamespace();
      dvs := [];
      for i := 0 to |m.volumeTemplates|
        invariant dvs == DataVolumesFor(m.name, ns, m.volumeTemplates[..i])
      {
        var t := m.volumeTemplates[i];
        assert m.volumeTemplates[..i + 1][..i] == m.volumeTemplates[..i];
        if t.dataVolume.Some? {
          dvs := dvs + [PlannedDataVolume(Key(ns, m.name + "-" + t.dataVolume.value.name), DataVolume(t.dataVolume.value.spec))];
        }
      }
      assert m.volumeTemplates[..|m.volumeTemplates|] == m.volumeTemplates;
    }

    /**
     * The VM for a machine: a copy of the template's spec whose DataVolume
     * references are renamed one by one. The machine's template itself is
     * left as it was (see TemplateAfterBuild for the source's shared list).
     */
    method BuildVm(m: VirtinkMachine, secretName: string) returns (r: Result<VirtualMachine, string>)
      ensures r == DesiredVm(m, m.annotations, client.secrets, secretName)
    {
      var spec := m.vmTemplate.spec;
      var volumes := spec.volumes;
      for i := 0 to |volumes|
        invariant |volumes| == |spec.volumes|
        invariant forall j :: 0 <= j < i ==> volumes[j] == RenameVolume(m.name, spec.volumes[j])
        invariant forall j :: i <= j < |volumes| ==> volumes[j] == spec.volumes[j]
      {
        if volumes[i].source.DataVolumeSource? {
          volumes := volumes[i := Volume(volumes[i].name, DataVolumeSource(m.name + "-" + volumes[i].source.volumeName))];
        }
      }
      assert volumes == RenameVolumes(m.name, spec.volumes);
      var k := Key(m.namespace, secretName);
      if k !in client.secrets {
        return Err("get bootstrap Secret: " + NotFoundText);
      }
      var userData := Text.Encode(UserData(client.secrets[k]));
      r := Ok(VirtualMachine(m.labels, m.annotations,
             VmSpec(spec.runPolicy, spec.disks + [Disk(CloudInitName)],
                    volumes + [Volume(CloudInitName, CloudInitSource(userData))]),
             "", NoPhase));
    }

    /** The machine's IP claim: the stored one, or the one the address step creates. */
    function ClaimOf(m: VirtinkMachine): IpClaim
      requires m.ipPoolRef.Some?
      reads client
    {
      if m.ClaimKey() in client.ipClaims then client.ipClaims[m.ClaimKey()] else NewClaim(m)
    }

    /**
     * The address step lets the pass go on: no pool, or a claim without an
     * error whose address exists, and a successful random read.
     */
    predicate AddressGoesOn(m: VirtinkMachine, random: Option<seq<Text.Byte>>)
      reads client
    {
      m.ipPoolRef.None?
      || (var claim := ClaimOf(m);
          claim.errorMessage.None? && claim.address.Some? && claim.address.value in client.ipAddresses
          && random.Some?)
    }

    /**
     * What the IP address step does: claim an address from the machine's
     * pool, stop on a claim error or while no address is assigned, and
     * otherwise rewrite the "$IP_ADDRESS" and "$MAC_ADDRESS" placeholders of
     * every annotation.
     */
    twostate predicate AddressStep(m: VirtinkMachine, random: Option<seq<Text.Byte>>, out: Outcome)
      requires random.Some? ==> |random.value| == 3
      reads this, client, m
    {
      && (m.ipPoolRef.None? ==>
            out == Done && client.ipClaims == old(client.ipClaims) && m.annotations == old(m.annotations)
            && m.failureReason == old(m.failureReason) && m.failureMessage == old(m.failureMessage))
      && (m.ipPoolRef.Some? ==>
            var k := m.ClaimKey();
            var claim := old(ClaimOf(m));
            client.ipClaims == old(client.ipClaims)[k := claim]
            // a claim the IP manager rejected marks the machine failed and stops requeueing
            && (claim.errorMessage.Some? ==>
                  out == NoRequeue && m.annotations == old(m.annotations)
                  && m.failureReason == Some(InvalidConfigurationMachineError) && m.failureMessage == claim.errorMessage)
            && (claim.errorMessage.None? ==> m.failureReason == old(m.failureReason) && m.failureMessage == old(m.failureMessage))
            // no address assigned yet, which includes a claim created in this pass
            && (claim.errorMessage.None? && claim.address.None? ==> out == RetryAfter(1) && m.annotations == old(m.annotations))
            && (claim.errorMessage.None? && claim.address.Some? && claim.address.value !in client.ipAddresses ==>
                  out == Error(NotFoundText) && m.annotations == old(m.annotations))
            && (claim.errorMessage.None? && claim.address.Some? && claim.address.value in client.ipAddresses ==>
                  (random.None? ==> out == Error("generate MAC address: rand") && m.annotations == old(m.annotations))
                  && (random.Some? ==>
                        (out == Done
                         && m.annotations == Text.ReplaceAll(old(m.annotations),
                              client.ipAddresses[claim.address.value].address, MacFor(random.value))))))
    }

    /**
     * The IP address step. `random` is the outcome of reading three random
     * bytes. Done means the pass goes on, and it does exactly when the
     * address step lets it.
     */
    method EnsureMachineAddress(m: VirtinkMachine, random: Option<seq<Text.Byte>>) returns (out: Outcome)
      requires random.Some? ==> |random.value| == 3
      modifies m`annotations, m`failureReason, m`failureMessage, client`ipClaims
      ensures AddressStep(m, random, out)
      ensures out == Done <==> old(AddressGoesOn(m, random))
    {
      if m.ipPoolRef.None? {
        return Done;
      }
      var k := m.ClaimKey();
      var claim: IpClaim;
      if k in client.ipClaims {
        claim := client.ipClaims[k];
      } else {
        claim := NewClaim(m);
        var err := client.CreateIpClaim(k, claim);
        match err {
          case Some(e) => return Error(e);
          case None =>
        }
      }
      if claim.errorMessage.Some? {
        m.failureReason := Some(InvalidConfigurationMachineError);
        m.failureMessage := claim.errorMessage;
        return NoRequeue;
      }
      if claim.address.None? {
        return RetryAfter(1);
      }
      var a := claim.address.value;
      if a !in client.ipAddresses {
        return Error(NotFoundText);
      }
      var mac := Text.GenerateMac(random);
      if mac.Err? {
        return Error("generate MAC address: " + mac.error);
      }
      var annotations := Text.ReplaceAnnotations(m.annotations, client.ipAddresses[a].address, Text.MacText(mac.value));
      m.annotations := annotations;
      return Done;
    }

    /** Creates, in order, each planned DataVolume whose key holds neither a DataVolume nor a claim. */
    method EnsureDataVolumes(m: VirtinkMachine, infra: Store)
      modifies infra`dataVolumes, recorder
      ensures var p := Provision(old(infra.dataVolumes), infra.pvcs,
                                 DataVolumesFor(m.name, m.InfraNamespace(), m.volumeTemplates));
        infra.dataVolumes == p.volumes && recorder.events == old(recorder.events) + VolumeEvents(p.created)
    {
      var dvs := BuildDataVolumes(m);
      for i := 0 to |dvs|
        invariant var p := Provision(old(infra.dataVolumes), infra.pvcs, dvs[..i]);
          infra.dataVolumes == p.volumes && recorder.events == old(recorder.events) + VolumeEvents(p.created)
      {
        var d := dvs[i];
        ProvisionStep(old(infra.dataVolumes), infra.pvcs, dvs, i);
        ghost var p := Provision(old(infra.dataVolumes), infra.pvcs, dvs[..i]);
        if d.key !in infra.dataVolumes && d.key !in infra.pvcs {
          var err := infra.CreateDataVolume(d.key, d.volume);
          recorder.Record("CreatedDataVolume", d.key.name);
          VolumeEventsStep(p.created, d.key);
        }
      }
      assert dvs[..|dvs|] == dvs;
    }

    /**
     * Creates the VM when none exists at the machine's key and retries after
     * 10 s; otherwise projects the VM onto the machine's provider ID,
     * readiness and failure state.
     */
    method EnsureVm(m: VirtinkMachine, secretName: string, infra: Store) returns (out: Outcome)
      modifies m`providerId, m`ready, m`failureReason, m`failureMessage, recorder, infra`vms
      ensures m.VmKey() !in old(infra.vms) ==>
        var b := old(DesiredVm(m, m.annotations, client.secrets, secretName));
        m.providerId == old(m.providerId) && m.ready == old(m.ready)
        && m.failureReason == old(m.failureReason) && m.failureMessage == old(m.failureMessage)
        && (b.Err? ==> out == Error("build VM: " + b.error)
                       && infra.vms == old(infra.vms) && recorder.events == old(recorder.events))
        && (b.Ok? ==> out == RetryAfter(10) && infra.vms == old(infra.vms)[m.VmKey() := b.value]
                      && recorder.events == old(recorder.events) + [Event("CreatedVM", m.name)])
      ensures m.VmKey() in old(infra.vms) ==>
        var vm := old(infra.vms)[m.VmKey()];
        infra.vms == old(infra.vms) && recorder.events == old(recorder.events)
        && m.providerId == Some(ProviderIdPrefix + vm.uid)
        && (m.ready <==> vm.phase == Running)
        && out == (if Provisioning(vm.phase) then RetryAfter(10) else Done)
        && (ReachesFinalState(vm.phase, vm.spec.runPolicy) ==>
              m.failureReason == Some(UpdateMachineError) && m.failureMessage == Some(FinalStateMessage))
        && (!ReachesFinalState(vm.phase, vm.spec.runPolicy) ==>
              m.failureReason == old(m.failureReason) && m.failureMessage == old(m.failureMessage))
    {
      var k := m.VmKey();
      if k !in infra.vms {
        var b := BuildVm(m, secretName);
        if b.Err? {
          return Error("build VM: " + b.error);
        }
        var err := infra.CreateVm(k, b.value);
        match err {
          case Some(e) => return Error("create VM: " + e);
          case None =>
        }
        recorder.Record("CreatedVM", m.name);
        return RetryAfter(10);
      }
      var vm := infra.vms[k];
      m.providerId := Some(ProviderIdPrefix + vm.uid);
      m.ready := false;
      match vm.phase {
        case Pending => return RetryAfter(10);
        case Scheduling => return RetryAfter(10);
        case Scheduled => return RetryAfter(10);
        case Running => m.ready := true;
        case Failed =>
          if vm.spec.runPolicy == Halted || vm.spec.runPolicy == Once {
            m.failureReason := Some(UpdateMachineError);
            m.failureMessage := Some(FinalStateMessage);
          }
        case Succeeded =>
          if vm.spec.runPolicy == Halted || vm.spec.runPolicy == Once || vm.spec.runPolicy == RerunOnFailure {
            m.failureReason := Some(UpdateMachineError);
            m.failureMessage := Some(FinalStateMessage);
          }
        case _ =>
      }
      return Done;
    }

    /**
     * Deletion: with the finalizer held, delete the VM if it exists, take the
     * finalizer off the machine's IP claim, and drop the machine's finalizer.
     */
    method DeleteMachine(m: VirtinkMachine, infra: Store)
      modifies m`finalizers, recorder, infra`vms, client`ipClaims
      ensures Finalizer !in old(m.finalizers) ==>
        m.finalizers == old(m.finalizers) && infra.vms == old(infra.vms)
        && client.ipClaims == old(client.ipClaims) && recorder.events == old(recorder.events)
      ensures Finalizer in old(m.finalizers) ==>
        var k, ck := m.VmKey(), m.ClaimKey();
        infra.vms == old(infra.vms) - {k}
        && recorder.events == old(recorder.events) + (if k in old(infra.vms) then [Event("DeletedVM", m.name)] else [])
        && client.ipClaims == (if m.ipPoolRef.Some? && ck in old(client.ipClaims)
                               then old(client.ipClaims)[ck := ReleaseClaim(old(client.ipClaims)[ck])]
                               else old(client.ipClaims))
        && m.finalizers == RemoveFinalizer(old(m.finalizers), Finalizer)
    {
      if Finalizer !in m.finalizers {
        return;
      }
      var k := m.VmKey();
      if k in infra.vms {
        var err := infra.DeleteVm(k);
        recorder.Record("DeletedVM", m.name);
      }
      if m.ipPoolRef.Some? {
        var ck := m.ClaimKey();
        if ck in client.ipClaims {
          var err := client.UpdateIpClaim(ck, ReleaseClaim(client.ipClaims[ck]));
        }
      }
      m.finalizers := RemoveFinalizer(m.finalizers, Finalizer);
    }

    /**
     * What a pass over a live machine does: the finalizer on the first pass,
     * a 3 s delay while a prerequisite is missing, DataVolumes and the VM
     * created only when missing, and the machine's status read from an
     * existing VM.
     */
    twostate predicate LivePass(m: VirtinkMachine, owners: Option<Owners>, infra: Store, random: Option<seq<Text.Byte>>,
                                out: Outcome)
      requires random.Some? ==> |random.value| == 3
      reads this, client, recorder, m, infra
    {
      // the first pass only adds the finalizer
      && (Finalizer !in old(m.finalizers) ==>
            out == Done && m.finalizers == AddFinalizer(old(m.finalizers), Finalizer)
            && m.annotations == old(m.annotations) && m.providerId == old(m.providerId) && m.ready == old(m.ready)
            && m.failureReason == old(m.failureReason) && m.failureMessage == old(m.failureMessage)
            && recorder.events == old(recorder.events) && client.ipClaims == old(client.ipClaims)
            && infra.vms == old(infra.vms) && infra.dataVolumes == old(infra.dataVolumes))
      && (Finalizer in old(m.finalizers) ==> m.finalizers == old(m.finalizers))
      // an owner Cluster that is not ready, or missing bootstrap data, delays the pass by 3 s and changes nothing
      && (Finalizer in old(m.finalizers) && owners.Some?
          && (!owners.value.cluster.infrastructureReady || owners.value.machine.dataSecretName.None?) ==>
            out == RetryAfter(3)
            && m.annotations == old(m.annotations) && m.providerId == old(m.providerId) && m.ready == old(m.ready)
            && m.failureReason == old(m.failureReason) && m.failureMessage == old(m.failureMessage)
            && recorder.events == old(recorder.events) && client.ipClaims == old(client.ipClaims)
            && infra.vms == old(infra.vms) && infra.dataVolumes == old(infra.dataVolumes))
      // with the prerequisites met, the address step runs first; when it stops, the pass ends with its outcome
      && (Finalizer in old(m.finalizers) && owners.Some? && owners.value.cluster.infrastructureReady
          && owners.value.machine.dataSecretName.Some? && !old(AddressGoesOn(m, random)) ==>
            AddressStep(m, random, out) && m.providerId == old(m.providerId) && m.ready == old(m.ready)
            && recorder.events == old(recorder.events)
            && infra.vms == old(infra.vms) && infra.dataVolumes == old(infra.dataVolumes))
      // when it goes on, its claim and rewritten annotations are kept
      && (Finalizer in old(m.finalizers) && owners.Some? && owners.value.cluster.infrastructureReady
          && owners.value.machine.dataSecretName.Some? && old(AddressGoesOn(m, random)) ==>
            (m.ipPoolRef.None? ==> m.annotations == old(m.annotations) && client.ipClaims == old(client.ipClaims))
            && (m.ipPoolRef.Some? ==>
                  var claim := old(ClaimOf(m));
                  client.ipClaims == old(client.ipClaims)[m.ClaimKey() := claim]
                  && m.annotations == Text.ReplaceAll(old(m.annotations),
                       old(client.ipAddresses)[claim.address.value].address, MacFor(random.value))))
      // when it goes on, the DataVolumes and the VM follow
      && (Finalizer in old(m.finalizers) && owners.Some? && owners.value.cluster.infrastructureReady
          && owners.value.machine.dataSecretName.Some? && old(AddressGoesOn(m, random)) ==>
            ProvisionPass(m, owners.value.machine.dataSecretName.value, infra, out))
      // no pass clears a recorded failure
      && (old(m.failureReason).Some? ==> m.failureReason.Some?)
    }

    /**
     * A live machine: the finalizer on the first pass; then the owner
     * Cluster's readiness and the bootstrap data as prerequisites, the IP
     * address step, the DataVolumes and the VM.
     */
    method LiveMachine(m: VirtinkMachine, owners: Option<Owners>, infra: Store, random: Option<seq<Text.Byte>>)
      returns (out: Outcome)
      requires Finalizer in m.finalizers ==> owners.Some?
      requires random.Some? ==> |random.value| == 3
      modifies m`finalizers, m`annotations, m`providerId, m`ready, m`failureReason, m`failureMessage,
               recorder, client`ipClaims, infra`vms, infra`dataVolumes
      ensures LivePass(m, owners, infra, random, out)
    {
      if Finalizer !in m.finalizers {
        m.finalizers := AddFinalizer(m.finalizers, Finalizer);
        return Done;
      }
      var o := owners.value;
      if !o.cluster.infrastructureReady {
        return RetryAfter(3);
      }
      if o.machine.dataSecretName.None? {
        return RetryAfter(3);
      }
      out := EnsureMachineAddress(m, random);
      if out != Done {
        return;
      }
      out := ProvisionMachine(m, o.machine.dataSecretName.value, infra);
    }

    /**
     * What the steps after the IP address step do: every planned DataVolume
     * whose key holds neither a DataVolume nor a claim is created, with one
     * event each; then a missing VM is built and created with a 10 s retry,
     * and an existing VM is projected onto the machine's provider ID,
     * readiness and failure state by the phase table.
     */
    twostate predicate ProvisionPass(m: VirtinkMachine, secretName: string, infra: Store, out: Outcome)
      reads this, client, recorder, m, infra
    {
      var p := Provision(old(infra.dataVolumes), old(infra.pvcs), DataVolumesFor(m.name, m.InfraNamespace(), m.volumeTemplates));
      var events := old(recorder.events) + VolumeEvents(p.created);
      var k := m.VmKey();
      && infra.dataVolumes == p.volumes
      // a missing VM is created, and the machine's status is left alone
      && (k !in old(infra.vms) ==>
            var b := DesiredVm(m, m.annotations, client.secrets, secretName);
            m.providerId == old(m.providerId) && m.ready == old(m.ready)
            && m.failureReason == old(m.failureReason) && m.failureMessage == old(m.failureMessage)
            && (b.Err? ==> out == Error("build VM: " + b.error) && infra.vms == old(infra.vms) && recorder.events == events)
            && (b.Ok? ==> out == RetryAfter(10) && infra.vms == old(infra.vms)[k := b.value]
                          && recorder.events == events + [Event("CreatedVM", m.name)]))
      // an existing VM gives the provider ID, readiness and the phase table's outcome
      && (k in old(infra.vms) ==>
            var vm := old(infra.vms)[k];
            infra.vms == old(infra.vms) && recorder.events == events
            && m.providerId == Some(ProviderIdPrefix + vm.uid)
            && (m.ready <==> vm.phase == Running)
            && out == (if Provisioning(vm.phase) then RetryAfter(10) else Done)
            && (ReachesFinalState(vm.phase, vm.spec.runPolicy) ==>
                  m.failureReason == Some(UpdateMachineError) && m.failureMessage == Some(FinalStateMessage))
            && (!ReachesFinalState(vm.phase, vm.spec.runPolicy) ==>
                  m.failureReason == old(m.failureReason) && m.failureMessage == old(m.failureMessage)))
    }

    /** The steps after the IP address step: the DataVolumes, then the VM. */
    method ProvisionMachine(m: VirtinkMachine, secretName: string, infra: Store)
      returns (out: Outcome)
      modifies m`providerId, m`ready, m`failureReason, m`failureMessage,
               recorder, infra`vms, infra`dataVolumes
      ensures ProvisionPass(m, secretName, infra, out)
      ensures old(m.failureReason).Some? ==> m.failureReason.Some?
    {
      EnsureDataVolumes(m, infra);
      out := EnsureVm(m, secretName, infra);
    }

    /**
     * What one pass over a VirtinkMachine does: the lookups, then deletion or
     * the live pass, and nothing in the store the pass does not use.
     */
    twostate predicate MachinePass(m: VirtinkMachine, ownerMachine: Lookup<OwnerMachine>, ownerCluster: Lookup<OwnerCluster>,
                                   remote: Result<Store, string>, random: Option<seq<Text.Byte>>, out: Outcome)
      requires random.Some? ==> |random.value| == 3
      reads this, client, recorder, m, VirtinkClusterController.RemoteSet(remote)
    {
      var ctx := old(Resolve(m, ownerMachine, ownerCluster, remote));
      // a missing owner ends the pass with no change, even during deletion
      && (ctx.Err? ==>
            out == ctx.error && unchanged(m, recorder, client) && unchanged(VirtinkClusterController.RemoteSet(remote)))
      && (ctx.Ok? ==>
            var infra, k := ctx.value.infra, m.VmKey();
            // the store that is not the infrastructure one keeps its VMs and DataVolumes
            && (infra != client ==> client.vms == old(client.vms) && client.dataVolumes == old(client.dataVolumes))
            && (remote.Ok? && remote.value != infra ==>
                  remote.value.vms == old(remote.value.vms) && remote.value.dataVolumes == old(remote.value.dataVolumes))
            // deletion touches only the VM, the IP claim and the finalizer
            && (m.deleting ==>
                  out == Done && infra.dataVolumes == old(infra.dataVolumes)
                  && m.annotations == old(m.annotations) && m.providerId == old(m.providerId) && m.ready == old(m.ready)
                  && m.failureReason == old(m.failureReason) && m.failureMessage == old(m.failureMessage))
            // deletion with the finalizer held
            && (m.deleting && Finalizer in old(m.finalizers) ==>
                  infra.vms == old(infra.vms) - {k}
                  && recorder.events == old(recorder.events) + (if k in old(infra.vms) then [Event("DeletedVM", m.name)] else [])
                  && client.ipClaims == (if m.ipPoolRef.Some? && m.ClaimKey() in old(client.ipClaims)
                                         then old(client.ipClaims)[m.ClaimKey() := ReleaseClaim(old(client.ipClaims)[m.ClaimKey()])]
                                         else old(client.ipClaims))
                  && m.finalizers == RemoveFinalizer(old(m.finalizers), Finalizer))
            // deletion without the finalizer does nothing
            && (m.deleting && Finalizer !in old(m.finalizers) ==>
                  m.finalizers == old(m.finalizers) && recorder.events == old(recorder.events)
                  && client.ipClaims == old(client.ipClaims) && infra.vms == old(infra.vms))
            // a live machine goes through the live pass with the resolved owners and store
            && (!m.deleting ==> LivePass(m, ctx.value.owners, infra, random, out)))
    }

    /** One pass over a VirtinkMachine: the lookups, then deletion or the live pass. */
    method ReconcileMachine(m: VirtinkMachine, ownerMachine: Lookup<OwnerMachine>, ownerCluster: Lookup<OwnerCluster>,
                            remote: Result<Store, string>, random: Option<seq<Text.Byte>>)
      returns (out: Outcome)
      requires random.Some? ==> |random.value| == 3
      modifies m`finalizers, m`annotations, m`providerId, m`ready, m`failureReason, m`failureMessage, recorder,
               client`ipClaims, client`vms, client`dataVolumes,
               VirtinkClusterController.RemoteSet(remote)`vms, VirtinkClusterController.RemoteSet(remote)`dataVolumes
      ensures MachinePass(m, ownerMachine, ownerCluster, remote, random, out)
      // no pass clears a recorded failure
      ensures old(m.failureReason).Some? ==> m.failureReason.Some?
    {
      var ctx := Resolve(m, ownerMachine, ownerCluster, remote);
      if ctx.Err? {
        return ctx.error;
      }
      var infra := ctx.value.infra;
      if m.deleting {
        DeleteMachine(m, infra);
        return Done;
      }
      out := LiveMachine(m, ctx.value.owners, infra, random);
    }

    /**
     * Reconcile: fetch, one pass, and a deferred patch of the machine that
     * runs whatever the pass returned; `patchError` is the outcome of that
     * patch. Delayed retries and a stop without requeue are not errors; a
     * plain success requeues after 30 s.
     */
    method Reconcile(m: VirtinkMachine?, ownerMachine: Lookup<OwnerMachine>, ownerCluster: Lookup<OwnerCluster>,
                     remote: Result<Store, string>, random: Option<seq<Text.Byte>>, patchError: Option<string>)
      returns (reply: Reply, patched: bool, ghost out: Outcome)
      requires random.Some? ==> |random.value| == 3
      modifies if m == null then {} else {m}, recorder, client`ipClaims, client`vms, client`dataVolumes,
               VirtinkClusterController.RemoteSet(remote)`vms, VirtinkClusterController.RemoteSet(remote)`dataVolumes
      ensures m == null ==> reply == Reply(0, None) && !patched && unchanged(recorder, client)
                            && unchanged(VirtinkClusterController.RemoteSet(remote))
      ensures m != null ==> MachinePass(m, ownerMachine, ownerCluster, remote, random, out)
      ensures m != null ==> patched
      ensures m != null ==> reply.requeueAfter == match out
        case Done => 30
        case RetryAfter(n) => n
        case NoRequeue => 0
        case Error(_) => 0
      // the error of the pass wins over the error of the patch
      ensures m != null && out.Error? ==> reply.error == Some(out.message)
      ensures m != null && !out.Error? ==>
        reply.error == if patchError.Some? then Some("patch Machine: " + patchError.value) else None
    {
      if m == null {
        return Reply(0, None), false, Done;
      }
      var pass := ReconcileMachine(m, ownerMachine, ownerCluster, remote, random);
      out := pass;
      patched := true;
      var patchResult := if patchError.Some? then Some("patch Machine: " + patchError.value) else None;
      match pass {
        case Error(e) => reply := Reply(0, Some(e));
        case Done => reply := Reply(30, patchResult);
        case RetryAfter(n) => reply := Reply(n, patchResult);
        case NoRequeue => reply := Reply(0, patchResult);
      }
    }
  }
}
